/** The save-item prompt: the dialog state `{ isOpen, isExecuting, inputValue,
    folderId, error }`, what pressing OK does with it, and the folder picker's
    root folders. The validator, executor, `onResolve` and `onError` props are
    the caller's; the executor's promise settles through `SettleExecution`. */
module Prompt {
  import opened Common
  import opened Seqs
  import Workspace

  /* ---------- String.prototype.trim ---------- */

  /** The characters `trim` removes: ECMAScript WhiteSpace and LineTerminator. */
  predicate IsJsWhitespace(c: char) {
    || c == '\t' || c == '\n' || c == '\U{000B}' || c == '\U{000C}' || c == '\r' || c == ' '
    || c == '\U{00A0}' || c == '\U{1680}' || ('\U{2000}' <= c <= '\U{200A}')
    || c == '\U{2028}' || c == '\U{2029}' || c == '\U{202F}' || c == '\U{205F}'
    || c == '\U{3000}' || c == '\U{FEFF}'
  }

  /** Drops the leading whitespace. */
  function TrimStart(s: string): (r: string)
    ensures |r| <= |s| && r == s[|s| - |r|..]
    ensures forall i :: 0 <= i < |s| - |r| ==> IsJsWhitespace(s[i])
    ensures r != [] ==> !IsJsWhitespace(r[0])
    decreases |s|
  {
    if s != [] && IsJsWhitespace(s[0]) then TrimStart(s[1..]) else s
  }

  /** Drops the trailing whitespace. */
  function TrimEnd(s: string): (r: string)
    ensures |r| <= |s| && r == s[..|r|]
    ensures forall i :: |r| <= i < |s| ==> IsJsWhitespace(s[i])
    ensures r != [] ==> !IsJsWhitespace(r[|r| - 1])
    decreases |s|
  {
    if s != [] && IsJsWhitespace(s[|s| - 1]) then TrimEnd(s[..|s| - 1]) else s
  }

  /** `s.trim()`: the longest infix that neither starts nor ends with whitespace,
      everything around it being whitespace. */
  function Trim(s: string): (r: string)
    ensures r != [] ==> !IsJsWhitespace(r[0]) && !IsJsWhitespace(r[|r| - 1])
    ensures exists i, j :: (0 <= i <= j <= |s| && r == s[i..j]
                            && (forall k :: 0 <= k < i ==> IsJsWhitespace(s[k]))
                            && (forall k :: j <= k < |s| ==> IsJsWhitespace(s[k])))
  {
    var t := TrimStart(s);
    var r := TrimEnd(t);
    var i := |s| - |t|;
    assert r == s[i..i + |r|];
    assert forall k :: i + |r| <= k < |s| ==> s[k] == t[k - i];
    assert 0 <= i <= i + |r| <= |s|;
    r
  }

  /** Trimming twice is trimming once. */
  lemma TrimIdempotent(s: string)
    ensures Trim(Trim(s)) == Trim(s)
  {
    var r := Trim(s);
    assert TrimStart(r) == r;
    assert TrimEnd(r) == r;
  }

  /** Leading whitespace does not change what `TrimStart` leaves. */
  lemma {:induction false} TrimStartIgnoresPadding(w: string, s: string)
    requires forall i :: 0 <= i < |w| ==> IsJsWhitespace(w[i])
    ensures TrimStart(w + s) == TrimStart(s)
    decreases |w|
  {
    if w != [] {
      assert (w + s)[1..] == w[1..] + s;
      TrimStartIgnoresPadding(w[1..], s);
    } else {
      assert w + s == s;
    }
  }

  /** Once a non-whitespace character is reached, what follows it is kept. */
  lemma {:induction false} TrimStartKeepsTail(s: string, w: string)
    requires TrimStart(s) != []
    ensures TrimStart(s + w) == TrimStart(s) + w
    decreases |s|
  {
    assert (s + w)[0] == s[0] && (s + w)[1..] == s[1..] + w;
    if IsJsWhitespace(s[0]) {
      assert TrimStart(s) == TrimStart(s[1..]);
      assert TrimStart(s + w) == TrimStart(s[1..] + w);
      TrimStartKeepsTail(s[1..], w);
    } else {
      assert TrimStart(s) == s && TrimStart(s + w) == s + w;
    }
  }

  /** Trailing whitespace does not change what `TrimEnd` leaves. */
  lemma {:induction false} TrimEndIgnoresPadding(s: string, w: string)
    requires forall i :: 0 <= i < |w| ==> IsJsWhitespace(w[i])
    ensures TrimEnd(s + w) == TrimEnd(s)
    decreases |w|
  {
    if w != [] {
      var u := w[..|w| - 1];
      assert (s + w)[..|s + w| - 1] == s + u;
      TrimEndIgnoresPadding(s, u);
    } else {
      assert s + w == s;
    }
  }

  /** Whitespace typed around a value does not change what is submitted. */
  lemma {:induction false} TrimIgnoresPadding(w1: string, s: string, w2: string)
    requires forall i :: 0 <= i < |w1| ==> IsJsWhitespace(w1[i])
    requires forall i :: 0 <= i < |w2| ==> IsJsWhitespace(w2[i])
    ensures Trim(w1 + s + w2) == Trim(s)
  {
    assert w1 + s + w2 == w1 + (s + w2);
    TrimStartIgnoresPadding(w1, s + w2);
    if TrimStart(s) != [] {
      TrimStartKeepsTail(s, w2);
      TrimEndIgnoresPadding(TrimStart(s), w2);
    } else {
      TrimStartIgnoresPadding(s, w2);
      assert TrimStart(w2) == [];
    }
  }

  /* ---------- pressing OK ---------- */

  /** `{ value, folderId }`, what the prompt submits. */
  datatype SubmitResult = SubmitResult(value: string, folderId: string)

  /** The validator's verdict on `value`; without a validator every value is valid. */
  function Verdict(validator: Option<string -> Validation>, value: string): (v: Validation)
    ensures validator.None? ==> v.isValid
    ensures validator.Some? ==> v == validator.value(value)
  {
    match validator
    case None => Validation(true, None)
    case Some(f) => f(value)
  }

  /** Which branch of `_onClickOk` runs. */
  datatype Step = Invalid(message: Option<string>) | Execute(result: SubmitResult) | Resolve(result: SubmitResult)

  /** `_onClickOk`'s decision: the trimmed input with the current folder is
      submitted, unless the validator rejects it; it is passed to the executor
      when there is one, else resolved directly. */
  function Decide(inputValue: string, folderId: string, validator: Option<string -> Validation>, hasExecutor: bool): (st: Step)
    ensures st.Invalid? <==> !Verdict(validator, Trim(inputValue)).isValid
    ensures st.Invalid? ==> st.message == Verdict(validator, Trim(inputValue)).message
    ensures st.Execute? <==> Verdict(validator, Trim(inputValue)).isValid && hasExecutor
    ensures st.Resolve? <==> Verdict(validator, Trim(inputValue)).isValid && !hasExecutor
    ensures !st.Invalid? ==> st.result == SubmitResult(Trim(inputValue), folderId)
  {
    var value := Trim(inputValue);
    var v := Verdict(validator, value);
    if !v.isValid then Invalid(v.message)
    else if hasExecutor then Execute(SubmitResult(value, folderId))
    else Resolve(SubmitResult(value, folderId))
  }

  /** The submitted value never has whitespace at either end. */
  lemma SubmittedValueIsTrimmed(inputValue: string, folderId: string, validator: Option<string -> Validation>, hasExecutor: bool)
    requires !Decide(inputValue, folderId, validator, hasExecutor).Invalid?
    ensures var v := Decide(inputValue, folderId, validator, hasExecutor).result.value;
      v == Trim(v) && (v != [] ==> !IsJsWhitespace(v[0]) && !IsJsWhitespace(v[|v| - 1]))
  {
    TrimIdempotent(inputValue);
  }

  /* ---------- typing into the input ---------- */

  /** The dialog state; `value` is the key `_onChangeValue` adds as written
      (`None` while it is absent), and `error` is `None` when `undefined`. */
  datatype PromptState = PromptState(isOpen: bool, isExecuting: bool, inputValue: string, folderId: string,
                                     error: Option<string>, value: Option<string>)

  function InitialState(value: string): PromptState {
    PromptState(true, false, value, "", Some(""), None)
  }

  /** `_onChangeValue` as written: the typed text goes to a new key `value` and
      the error is cleared; `inputValue`, which OK reads, keeps its old text. */
  function ChangeValueAsWritten(s: PromptState, typed: string): (t: PromptState)
    ensures t.inputValue == s.inputValue && t.value == Some(typed) && t.error == Some("")
    ensures t.isOpen == s.isOpen && t.isExecuting == s.isExecuting && t.folderId == s.folderId
  {
    s.(value := Some(typed), error := Some(""))
  }

  /** With the handler as written, typing "report" into a prompt opened empty and
      pressing OK submits the empty string. */
  lemma TypedTextIsIgnoredAsWritten()
    ensures Decide(ChangeValueAsWritten(InitialState(""), "report").inputValue, "", None, false)
         == Resolve(SubmitResult("", ""))
  {
    assert TrimStart("") == "" && TrimEnd("") == "";
  }

  /** `_onChangeValue` as intended: the typed text becomes `inputValue` and the error is cleared. */
  function ChangeValue(s: PromptState, typed: string): (t: PromptState)
    ensures t == s.(inputValue := typed, error := Some(""))
  {
    s.(inputValue := typed, error := Some(""))
  }

  /** With the intended handler, pressing OK after typing submits the trimmed typed text. */
  lemma TypedTextIsSubmitted(s: PromptState, typed: string, validator: Option<string -> Validation>, hasExecutor: bool)
    requires Verdict(validator, Trim(typed)).isValid
    ensures var st := Decide(ChangeValue(s, typed).inputValue, s.folderId, validator, hasExecutor);
      !st.Invalid? && st.result == SubmitResult(Trim(typed), s.folderId)
  {
  }

  /* ---------- the folder picker ---------- */

  function IsRootFolder(f: Workspace.Container): bool {
    !Truthy(f.ref.folderId)
  }

  /** `rootOrders`: the ids of the folders without a truthy parent folder, in order. */
  function RootOrders(folders: seq<Workspace.Container>): (ids: seq<Id>)
    ensures |ids| == |Filter(folders, IsRootFolder)|
    ensures forall i :: 0 <= i < |ids| ==> ids[i] == Filter(folders, IsRootFolder)[i].ref.id
    decreases |folders|
  {
    if folders == [] then []
    else
      assert folders == [folders[0]] + folders[1..];
      (if IsRootFolder(folders[0]) then [folders[0].ref.id] else []) + RootOrders(folders[1..])
  }

  /** What `PathSelector` shows: nothing for a missing or empty folder list, else the tree rooted at `rootOrders`. */
  function PathSelectorRoots(folders: Option<seq<Workspace.Container>>): (r: Option<seq<Id>>)
    ensures r.None? <==> folders.None? || folders.value == []
    ensures r.Some? ==> r.value == RootOrders(folders.value)
  {
    if folders.None? || folders.value == [] then None else Some(RootOrders(folders.value))
  }

  /** `onItemSelect`: the first selected id, and nothing for an absent or empty selection. */
  function SelectedFolder(itemIds: Option<seq<Id>>): (r: Option<Id>)
    ensures r.None? <==> itemIds.None? || itemIds.value == []
    ensures r.Some? ==> r.value == itemIds.value[0]
  {
    if itemIds.None? || itemIds.value == [] then None else Some(itemIds.value[0])
  }

  /* ---------- the component ---------- */

  /** The calls the prompt makes on its caller's props. */
  datatype Call<R> =
    | ReportedInvalid(message: Option<string>)
    | ReportedFailure(error: RestError)
    | Executed(result: SubmitResult)
    | ResolvedResult(result: SubmitResult)
    | ResolvedResponse(response: R)

  /** The prompt, for an executor whose promise resolves with an `R`. */
  class PromptSaveItem<R> {
    const validator: Option<string -> Validation>
    const hasExecutor: bool
    const hasOnError: bool
    var isOpen: bool
    var isExecuting: bool
    var inputValue: string
    var folderId: string
    var error: Option<string>
    var value: Option<string>
    /** Executor promises not yet settled. */
    var pending: nat
    var calls: seq<Call<R>>

    constructor (initialValue: string, validator: Option<string -> Validation>, hasExecutor: bool, hasOnError: bool)
      ensures this.validator == validator && this.hasExecutor == hasExecutor && this.hasOnError == hasOnError
      ensures State() == InitialState(initialValue) && pending == 0 && calls == []
    {
      this.validator, this.hasExecutor, this.hasOnError := validator, hasExecutor, hasOnError;
      isOpen, isExecuting, inputValue, folderId := true, false, initialValue, "";
      error, value, pending, calls := Some(""), None, 0, [];
    }

    function State(): PromptState
      reads this
    {
      PromptState(isOpen, isExecuting, inputValue, folderId, error, value)
    }

    /** `_close`: the dialog closes (`onClose` follows after a delay). */
    method Close()
      modifies this`isOpen
      ensures !isOpen
    {
      isOpen := false;
    }

    /** `_onChangeValue`, with the typed text stored where OK reads it. */
    method ChangeInput(typed: string)
      modifies this`inputValue, this`error
      ensures State() == ChangeValue(old(State()), typed)
    {
      inputValue, error := typed, Some("");
    }

    /** `_onChangeValue` as written: the typed text is kept under `value`, where OK does not read it. */
    method ChangeInputAsWritten(typed: string)
      modifies this`value, this`error
      ensures State() == ChangeValueAsWritten(old(State()), typed)
    {
      value, error := Some(typed), Some("");
    }

    /** `PathSelector`'s `onSelect`: a selection sets the folder, an empty one is ignored. */
    method SelectFolder(itemIds: Option<seq<Id>>)
      modifies this`folderId
      ensures folderId == SelectedFolder(itemIds).GetOr(old(folderId))
    {
      var selected := SelectedFolder(itemIds);
      if selected.Some? {
        folderId := selected.value;
      }
    }

    /** `_onClickOk`. An invalid value shows the validator's message and calls
        `onError`, leaving the dialog open; a valid one either starts the
        executor (clearing the error, showing progress) or is resolved directly
        and closes the dialog. */
    method ClickOk()
      modifies this`isOpen, this`isExecuting, this`error, this`pending, this`calls
      ensures var st := Decide(old(inputValue), folderId, validator, hasExecutor);
        && (st.Invalid? ==> && error == st.message && isOpen == old(isOpen) && isExecuting == old(isExecuting)
                            && pending == old(pending)
                            && calls == old(calls) + if hasOnError then [ReportedInvalid(st.message)] else [])
        && (st.Execute? ==> && error == Some("") && isExecuting && isOpen == old(isOpen)
                            && pending == old(pending) + 1 && calls == old(calls) + [Executed(st.result)])
        && (st.Resolve? ==> && error == Some("") && !isOpen && isExecuting == old(isExecuting)
                            && pending == old(pending) && calls == old(calls) + [ResolvedResult(st.result)])
    {
      var value := Trim(inputValue);
      var result := SubmitResult(value, folderId);
      var verdict := Verdict(validator, value);
      if !verdict.isValid {
        error := verdict.message;
        if hasOnError {
          calls := calls + [ReportedInvalid(verdict.message)];
        }
      } else if hasExecutor {
        error, isExecuting := Some(""), true;
        calls := calls + [Executed(result)];
        pending := pending + 1;
      } else {
        calls := calls + [ResolvedResult(result)];
        error, isOpen := Some(""), false;
      }
    }

    /** The executor's promise settles: on success `onResolve` gets the response and
        the dialog closes; on failure the error message is shown and it stays open. */
    method SettleExecution(outcome: RestOutcome<R>)
      requires pending > 0
      modifies this`isOpen, this`isExecuting, this`error, this`pending, this`calls
      ensures pending == old(pending) - 1 && !isExecuting
      ensures outcome.Success? ==> && !isOpen && error == old(error)
                                   && calls == old(calls) + [ResolvedResponse(outcome.data)]
      ensures outcome.Failure? ==> && isOpen == old(isOpen) && error == Some(ErrorMessage(outcome.error))
                                   && calls == old(calls) + if hasOnError then [ReportedFailure(outcome.error)] else []
    {
      pending := pending - 1;
      match outcome {
        case Success(res) =>
          calls := calls + [ResolvedResponse(res)];
          isOpen, isExecuting := false, false;
        case Failure(e) =>
          if hasOnError {
            calls := calls + [ReportedFailure(e)];
          }
          isExecuting, error := false, Some(ErrorMessage(e));
      }
    }
  }
}
