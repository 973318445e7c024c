/** The question loops of the wizard (src/main.rs:142-241): crate name, driver
    type, version-control system, then the confirm / retry / quit decision.

    Standard input is a finite sequence of `read_line` results. Each `Line`
    holds exactly the text one call appends to its buffer (the line with its
    terminator); once the sequence is used up, every further call returns
    `Ok(0)` and appends nothing. A loop that would then spin for ever ends in
    `Stuck`. What the wizard prints is kept only as the kind of message
    (`Event`), not its wording. */
module Prompts {
  import opened Text

  datatype Read = Line(text: string) | ReadError

  datatype Event =
    | Banner
    | AskName
    | AskDriverType
    | AskVcs
    | UnrecognizedDriverType(value: string)
    | Summary(crateName: string, driverType: string, vcsType: string)
    | UnrecognizedInput
    | InvalidNumber(kind: IntErrorKind)

  predicate IsPrompt(e: Event) {
    e.AskName? || e.AskDriverType? || e.AskVcs?
  }

  /** How a loop over standard input ends: with a value and the position of
      the next unread line, by waiting for ever at end of input, or by the
      panic that follows a failed read. `log` holds the messages printed (for
      `Stuck`, up to the first read at end of input; after it the loop only
      repeats itself). */
  datatype Run<T> =
    | Done(value: T, next: nat, log: seq<Event>)
    | Stuck(log: seq<Event>)
    | Failed(log: seq<Event>)

  /** `r` with the messages `l` printed before it. */
  function Prepend<T>(l: seq<Event>, r: Run<T>): (q: Run<T>)
    ensures q.log == l + r.log
    ensures q.Done? == r.Done? && q.Stuck? == r.Stuck? && q.Failed? == r.Failed?
    ensures r.Done? ==> q.value == r.value && q.next == r.next
  {
    match r
    case Done(v, n, k) => Done(v, n, l + k)
    case Stuck(k) => Stuck(l + k)
    case Failed(k) => Failed(l + k)
  }

  lemma PrependTwice<T>(l1: seq<Event>, l2: seq<Event>, r: Run<T>)
    ensures Prepend(l1, Prepend(l2, r)) == Prepend(l1 + l2, r)
  {
  }

  /** Trimmed, lower case and not empty: what the name and VCS loops accept. */
  predicate IsNormalized(s: string) {
    s != [] && IsTrimmed(s) && IsLower(s)
  }

  /** The driver types the wizard accepts (src/main.rs:168). */
  const DRIVER_TYPES: seq<string> := ["WDM", "KMDF", "UMDF"]

  predicate IsDriverType(s: string) {
    s in DRIVER_TYPES
  }

  /** The loops for the crate name (src/main.rs:149-157) and the VCS type
      (src/main.rs:183-193): prompt, read into the empty buffer, trim and
      lower-case, and repeat while the result is empty. */
  function LowercaseLoop(input: seq<Read>, pos: nat, ask: Event): (r: Run<string>)
    ensures r.Done? ==> pos < r.next <= |input|
    decreases |input| - pos
  {
    if pos >= |input| then Stuck([ask])
    else match input[pos]
      case ReadError => Failed([ask])
      case Line(t) =>
        var v := ToLower(Trim(t));
        if v == [] then Prepend([ask], LowercaseLoop(input, pos + 1, ask))
        else Done(v, pos + 1, [ask])
  }

  lemma LowercaseUnfold(input: seq<Read>, pos: nat, ask: Event)
    requires pos < |input| && input[pos].Line?
    ensures var v := ToLower(Trim(input[pos].text));
      LowercaseLoop(input, pos, ask) ==
        if v == [] then Prepend([ask], LowercaseLoop(input, pos + 1, ask)) else Done(v, pos + 1, [ask])
  {
  }

  /** An answer of the name or VCS loop is trimmed, lower case and not
      empty; it is the last line the loop read, trimmed and lower-cased, and
      every line it consumed before that was blank after trimming. */
  lemma {:induction false} LowercaseResult(input: seq<Read>, pos: nat, ask: Event)
    ensures var r := LowercaseLoop(input, pos, ask);
      r.Done? ==> (IsNormalized(r.value) &&
        input[r.next - 1].Line? && r.value == ToLower(Trim(input[r.next - 1].text)) &&
        forall i :: pos <= i < r.next - 1 ==> input[i].Line? && Trim(input[i].text) == [])
    decreases |input| - pos
  {
    if pos < |input| && input[pos].Line? {
      var t := input[pos].text;
      LowerFacts(Trim(t));
      if ToLower(Trim(t)) == [] {
        LowercaseResult(input, pos + 1, ask);
      }
    }
  }

  /** The driver-type loop (src/main.rs:159-181): trim and upper-case; one of
      the three types is accepted, an empty line is asked again silently, and
      anything else is reported and asked again. */
  function DriverLoop(input: seq<Read>, pos: nat): (r: Run<string>)
    ensures r.Done? ==> IsDriverType(r.value) && pos < r.next <= |input|
    decreases |input| - pos
  {
    if pos >= |input| then Stuck([AskDriverType])
    else match input[pos]
      case ReadError => Failed([AskDriverType])
      case Line(t) =>
        var v := ToUpper(Trim(t));
        if IsDriverType(v) then Done(v, pos + 1, [AskDriverType])
        else if v == [] then Prepend([AskDriverType], DriverLoop(input, pos + 1))
        else Prepend([AskDriverType, UnrecognizedDriverType(v)], DriverLoop(input, pos + 1))
  }

  datatype Decision = Accept | Retry | Quit

  /** What the confirmation loop makes of its (trimmed) buffer. */
  datatype Verdict = Decided(decision: Decision) | Unrecognized | NotANumber(kind: IntErrorKind)

  /** src/main.rs:208-238: empty means confirm; otherwise parse as `u32`
      where 1 confirms, 2 retries, 3 quits, any other number or a parse
      error asks again. */
  function Judge(s: string): Verdict {
    if s == [] then Decided(Accept)
    else match ParseU32(s)
      case Ok(n) =>
        if n == 1 then Decided(Accept)
        else if n == 2 then Decided(Retry)
        else if n == 3 then Decided(Quit)
        else Unrecognized
      case Err(k) => NotANumber(k)
  }

  /** The message printed for a rejected buffer. */
  function Complaint(v: Verdict): Event
    requires !v.Decided?
  {
    if v.Unrecognized? then UnrecognizedInput else InvalidNumber(v.kind)
  }

  /** The confirmation loop (src/main.rs:200-240). `buf` is the confirmation
      buffer, which is never cleared: each read appends to what the previous
      iteration left there, and the sum is trimmed. At end of input nothing is
      appended and the same buffer is judged again. */
  function ConfirmLoop(input: seq<Read>, pos: nat, buf: string): (r: Run<Decision>)
    ensures r.Done? ==> pos <= r.next && (pos <= |input| ==> r.next <= |input|)
    ensures r.Done? && r.next == pos ==> Judge(Trim(buf)) == Decided(r.value)
    decreases |input| - pos
  {
    if pos >= |input| then
      var c := Trim(buf);
      var v := Judge(c);
      if v.Decided? then Done(v.decision, pos, []) else Stuck([Complaint(v)])
    else match input[pos]
      case ReadError => Failed([])
      case Line(t) =>
        var c := Trim(buf + t);
        var v := Judge(c);
        if v.Decided? then Done(v.decision, pos + 1, [])
        else Prepend([Complaint(v)], ConfirmLoop(input, pos + 1, c))
  }

  datatype Answers = Answers(crateName: string, driverType: string, vcsType: string)

  /** What leaves the collection phase: confirmed answers, or `exit(2)`. */
  datatype Ending = Confirmed(answers: Answers) | ExitRequested

  predicate ValidAnswers(a: Answers) {
    IsNormalized(a.crateName) && IsDriverType(a.driverType) && IsNormalized(a.vcsType)
  }

  /** Each answer is either still empty or already accepted. */
  predicate PartialAnswers(a: Answers) {
    (a.crateName == [] || IsNormalized(a.crateName)) &&
    (a.driverType == [] || IsDriverType(a.driverType)) &&
    (a.vcsType == [] || IsNormalized(a.vcsType))
  }

  predicate Settled(a: Answers) {
    a.crateName != [] && a.driverType != [] && a.vcsType != []
  }

  /** A field loop that runs only while its answer is empty. */
  function Skip(value: string, pos: nat): Run<string> {
    Done(value, pos, [])
  }

  /** A run that stopped before producing its value, with the messages `l`
      printed before it, as the result of an enclosing loop. */
  function Abort<A, B>(l: seq<Event>, r: Run<A>): (q: Run<B>)
    requires !r.Done?
    ensures !q.Done? && q.Stuck? == r.Stuck? && q.log == l + r.log
  {
    if r.Stuck? then Stuck(l + r.log) else Failed(l + r.log)
  }

  /** The three field loops of one outer iteration (src/main.rs:148-193). A
      field that is already set is kept as it is; otherwise its loop produces
      an accepted answer. */
  function Fields(input: seq<Read>, pos: nat, a: Answers): (r: Run<Answers>)
    requires pos <= |input|
    ensures r.Done? ==> pos <= r.next <= |input|
    ensures Settled(a) ==> r == Done(a, pos, [])
  {
    var rn := if a.crateName == [] then LowercaseLoop(input, pos, AskName) else Skip(a.crateName, pos);
    if !rn.Done? then Abort([], rn)
    else
      var rd := if a.driverType == [] then DriverLoop(input, rn.next) else Skip(a.driverType, rn.next);
      if !rd.Done? then Abort(rn.log, rd)
      else
        var rv := if a.vcsType == [] then LowercaseLoop(input, rd.next, AskVcs) else Skip(a.vcsType, rd.next);
        if !rv.Done? then Abort(rn.log + rd.log, rv)
        else
          var none: seq<Event> := [];
          assert none + none + none == none;
          Done(Answers(rn.value, rd.value, rv.value), rv.next, rn.log + rd.log + rv.log)
  }

  /** One iteration of the outer `while editing` loop (src/main.rs:146-240)
      from answers `a` at input position `pos`: the field loops, the summary,
      and the confirmation loop with a fresh buffer. Its value is the decision
      and the answers it was made on. */
  function Round(input: seq<Read>, pos: nat, a: Answers): (r: Run<(Decision, Answers)>)
    requires pos <= |input|
    ensures r.Done? ==> pos <= r.next <= |input| && (r.value.0 == Retry ==> pos < r.next)
  {
    var rf := Fields(input, pos, a);
    if !rf.Done? then Abort([], rf)
    else
      var b := rf.value;
      var shown := rf.log + [Summary(b.crateName, b.driverType, b.vcsType)];
      var rc := ConfirmLoop(input, rf.next, []);
      assert Judge(Trim([])) == Decided(Accept);
      if rc.Done? then Done((rc.value, b), rc.next, shown + rc.log) else Abort(shown, rc)
  }

  /** The outer loop from answers `a` at input position `pos`: a round that
      confirms or quits ends it, one that retries starts the next round with
      the answers it had. */
  function Collect(input: seq<Read>, pos: nat, a: Answers): (r: Run<Ending>)
    requires pos <= |input|
    decreases |input| - pos
  {
    match Round(input, pos, a)
    case Stuck(l) => Stuck(l)
    case Failed(l) => Failed(l)
    case Done(r, next, l) =>
      if r.0 == Accept then Done(Confirmed(r.1), next, l)
      else if r.0 == Quit then Done(ExitRequested, next, l)
      else Prepend(l, Collect(input, next, r.1))
  }

  /** The whole collection phase: all answers start out empty. */
  function RunWizard(input: seq<Read>): Run<Ending> {
    Collect(input, 0, Answers([], [], []))
  }

  // ------------------------------------------------------------ properties

  /** The field loops leave only accepted answers behind. */
  lemma FieldsValid(input: seq<Read>, pos: nat, a: Answers)
    requires pos <= |input| && PartialAnswers(a)
    ensures var r := Fields(input, pos, a); r.Done? ==> ValidAnswers(r.value)
  {
    var rn := if a.crateName == [] then LowercaseLoop(input, pos, AskName) else Skip(a.crateName, pos);
    LowercaseResult(input, pos, AskName);
    if rn.Done? {
      var rd := if a.driverType == [] then DriverLoop(input, rn.next) else Skip(a.driverType, rn.next);
      if rd.Done? {
        LowercaseResult(input, rd.next, AskVcs);
      }
    }
  }

  /** Whatever the input, answers that leave the collection phase are
      trimmed, cased and non-empty, and the driver type is one of the three. */
  lemma {:induction false} CollectValid(input: seq<Read>, pos: nat, a: Answers)
    requires pos <= |input| && PartialAnswers(a)
    ensures var r := Collect(input, pos, a);
      r.Done? && r.value.Confirmed? ==> ValidAnswers(r.value.answers)
    decreases |input| - pos
  {
    FieldsValid(input, pos, a);
    var r := Round(input, pos, a);
    if r.Done? && r.value.0 == Retry {
      CollectValid(input, r.next, r.value.1);
    }
  }

  lemma WizardValid(input: seq<Read>)
    ensures var r := RunWizard(input);
      r.Done? && r.value.Confirmed? ==> ValidAnswers(r.value.answers)
  {
    CollectValid(input, 0, Answers([], [], []));
  }

  /** No message of `log` is one of the three questions. */
  predicate Quiet(log: seq<Event>) {
    forall i :: 0 <= i < |log| ==> !IsPrompt(log[i])
  }

  /** The confirmation loop prints no prompt. */
  lemma {:induction false} ConfirmQuiet(input: seq<Read>, pos: nat, buf: string)
    ensures Quiet(ConfirmLoop(input, pos, buf).log)
    decreases |input| - pos
  {
    if pos < |input| && input[pos].Line? {
      var c := Trim(buf + input[pos].text);
      var v := Judge(c);
      if !v.Decided? {
        ConfirmQuiet(input, pos + 1, c);
        var rest := ConfirmLoop(input, pos + 1, c);
        var r := ConfirmLoop(input, pos, buf);
        assert r.log == [Complaint(v)] + rest.log;
        forall i | 0 <= i < |r.log|
          ensures !IsPrompt(r.log[i])
        {
          if i > 0 {
            assert r.log[i] == rest.log[i - 1];
          }
        }
      }
    }
  }

  /** Choosing 2 keeps all three answers: once they are all set, every later
      round skips the three questions, shows the same summary first, prints
      no prompt, and confirms exactly the answers it already had. */
  lemma {:induction false} RetryKeepsAnswers(input: seq<Read>, pos: nat, a: Answers)
    requires pos <= |input| && Settled(a)
    ensures var r := Collect(input, pos, a);
      |r.log| > 0 && r.log[0] == Summary(a.crateName, a.driverType, a.vcsType) &&
      Quiet(r.log) &&
      (r.Done? && r.value.Confirmed? ==> r.value.answers == a)
    decreases |input| - pos
  {
    var shown := [Summary(a.crateName, a.driverType, a.vcsType)];
    assert [] + shown == shown;
    var rc := ConfirmLoop(input, pos, []);
    ConfirmQuiet(input, pos, []);
    var round := Round(input, pos, a);
    assert round.log == shown + rc.log;
    if rc.Done? && rc.value == Retry {
      RetryKeepsAnswers(input, rc.next, a);
      var rest := Collect(input, rc.next, a);
      assert Collect(input, pos, a).log == shown + rc.log + rest.log;
    }
  }

  /** An empty (or blank) answer at the confirmation confirms at once, and so
      does end of input, however many retries came before. */
  lemma ConfirmBlank(input: seq<Read>, pos: nat)
    requires pos < |input| ==> input[pos].Line? && AllSpace(input[pos].text)
    ensures ConfirmLoop(input, pos, []) == Done(Accept, if pos < |input| then pos + 1 else pos, [])
  {
    if pos < |input| {
      TrimExact(input[pos].text, [], []);
      assert input[pos].text + [] + [] == [] + input[pos].text;
    } else {
      assert Trim([]) == [];
    }
  }

  /** The buffer is not cleared after a rejected token `t`: a following blank
      line leaves the buffer at `t` again, so it is rejected again instead of
      confirming. */
  lemma BlankAfterRejection(input: seq<Read>, pos: nat, t: string)
    requires IsTrimmed(t) && !Judge(t).Decided?
    requires pos < |input| && input[pos].Line? && AllSpace(input[pos].text)
    ensures ConfirmLoop(input, pos, t) == Prepend([Complaint(Judge(t))], ConfirmLoop(input, pos + 1, t))
  {
    TrimAppendSpace(t, input[pos].text);
  }

  /** A buffer whose first character is neither white space, a digit nor `+`
      can never be accepted again: every later line is appended behind it, so
      the loop can only wait for ever or fail on a read. */
  lemma {:induction false} NonNumericNeverDecides(input: seq<Read>, pos: nat, buf: string)
    requires buf != [] && !IsSpace(buf[0]) && !IsDigit(buf[0]) && buf[0] != '+'
    ensures !ConfirmLoop(input, pos, buf).Done?
    decreases |input| - pos
  {
    var l := if pos < |input| && input[pos].Line? then input[pos].text else [];
    TrimKeepsHead(buf, l);
    var c := Trim(buf + l);
    assert Unsigned(c) == c;
    assert !AllDigits(c) by { assert !IsDigit(c[0]); }
    ParseU32Spec(c);
    if pos >= |input| {
      assert buf + l == buf;
    } else if input[pos].Line? {
      NonNumericNeverDecides(input, pos + 1, c);
    }
  }

  /** What each confirmation answer means, in terms of its digits: the empty
      answer or an optional `+` and digits worth 1 confirm, worth 2 retry,
      worth 3 quit; anything else is rejected. */
  lemma JudgeMeaning(s: string)
    ensures Judge(s) == Decided(Accept) <==>
      s == [] || (Unsigned(s) != [] && AllDigits(Unsigned(s)) && DigitsValue(Unsigned(s)) == 1)
    ensures Judge(s) == Decided(Retry) <==>
      s != [] && Unsigned(s) != [] && AllDigits(Unsigned(s)) && DigitsValue(Unsigned(s)) == 2
    ensures Judge(s) == Decided(Quit) <==>
      s != [] && Unsigned(s) != [] && AllDigits(Unsigned(s)) && DigitsValue(Unsigned(s)) == 3
  {
    ParseU32Spec(s);
  }

  /** Sample answers: "1", "01" and "+1" confirm, "2" retries, "3" quits,
      "0", "4" and "abc" are rejected. */
  lemma JudgeSamples()
    ensures Judge("1") == Decided(Accept) && Judge("01") == Decided(Accept) && Judge("+1") == Decided(Accept)
    ensures Judge("2") == Decided(Retry) && Judge("3") == Decided(Quit)
    ensures Judge("0") == Unrecognized && Judge("4") == Unrecognized
    ensures Judge("abc") == NotANumber(InvalidDigit)
  {
  }

  predicate RejectedDriverLine(r: Read) {
    r.Line? && !IsDriverType(ToUpper(Trim(r.text)))
  }

  function CountPrompts(log: seq<Event>, e: Event): nat {
    if log == [] then 0 else (if log[0] == e then 1 else 0) + CountPrompts(log[1..], e)
  }

  lemma CountAppend(l1: seq<Event>, l2: seq<Event>, e: Event)
    ensures CountPrompts(l1 + l2, e) == CountPrompts(l1, e) + CountPrompts(l2, e)
  {
    if l1 != [] {
      assert (l1 + l2)[1..] == l1[1..] + l2;
    } else {
      assert l1 + l2 == l2;
    }
  }

  /** k rejected driver types followed by an accepted one: the loop returns
      exactly the accepted value and asked exactly k + 1 times. */
  lemma {:induction false} DriverRetries(input: seq<Read>, pos: nat, k: nat)
    requires pos + k < |input|
    requires forall i :: pos <= i < pos + k ==> RejectedDriverLine(input[i])
    requires input[pos + k].Line? && IsDriverType(ToUpper(Trim(input[pos + k].text)))
    ensures var r := DriverLoop(input, pos);
      r.Done? && r.value == ToUpper(Trim(input[pos + k].text)) && r.next == pos + k + 1 &&
      CountPrompts(r.log, AskDriverType) == k + 1
    decreases k
  {
    if k > 0 {
      assert RejectedDriverLine(input[pos]);
      DriverRetries(input, pos + 1, k - 1);
      var v := ToUpper(Trim(input[pos].text));
      var rest := DriverLoop(input, pos + 1);
      var pre := if v == [] then [AskDriverType] else [AskDriverType, UnrecognizedDriverType(v)];
      assert DriverLoop(input, pos).log == pre + rest.log;
      CountAppend(pre, rest.log, AskDriverType);
    }
  }

  // -------------------------------------------------------- the wizard object

  datatype Status = Proceed | Hang | IoPanic | Exit2

  /** The status and new state of a method correspond to a run of a loop. */
  ghost predicate SameRun<T>(r: Run<T>, status: Status, value: T, cursor: nat, printed: seq<Event>) {
    status != Exit2 && r == Observe(status, value, cursor, printed)
  }

  /** The run that a loop method's status and new state amount to. */
  function Observe<T>(status: Status, value: T, cursor: nat, printed: seq<Event>): Run<T>
    requires status != Exit2
  {
    match status
    case Proceed => Done(value, cursor, printed)
    case Hang => Stuck(printed)
    case IoPanic => Failed(printed)
  }

  /** One iteration of the name or VCS loop inside a run `whole` that has
      printed `printed` so far: `ok` and `value` are what the read at input
      position `here`, the trim and the lower-casing produced. */
  lemma LowercaseStep(input: seq<Read>, here: nat, ask: Event, whole: Run<string>, printed: seq<Event>,
                      ok: bool, value: string)
    requires whole == Prepend(printed, LowercaseLoop(input, here, ask))
    requires here < |input| ==> ok == input[here].Line? && (ok ==> value == ToLower(Trim(input[here].text)))
    requires here >= |input| ==> ok
    ensures !ok ==> whole == Failed(printed + [ask])
    ensures ok && here >= |input| ==> whole == Stuck(printed + [ask])
    ensures ok && here < |input| && value == [] ==>
      whole == Prepend(printed + [ask], LowercaseLoop(input, here + 1, ask))
    ensures ok && here < |input| && value != [] ==> whole == Done(value, here + 1, printed + [ask])
  {
    if ok && here < |input| {
      LowercaseUnfold(input, here, ask);
      PrependTwice(printed, [ask], LowercaseLoop(input, here + 1, ask));
    }
  }

  /** One iteration of the driver-type loop inside a run `whole`. */
  lemma DriverStep(input: seq<Read>, here: nat, whole: Run<string>, printed: seq<Event>, ok: bool, value: string,
                    known: bool)
    requires whole == Prepend(printed, DriverLoop(input, here))
    requires here < |input| ==> ok == input[here].Line? && (ok ==> value == ToUpper(Trim(input[here].text)))
    requires here >= |input| ==> ok
    requires known == IsDriverType(value)
    ensures !ok ==> whole == Failed(printed + [AskDriverType])
    ensures ok && here >= |input| ==> whole == Stuck(printed + [AskDriverType])
    ensures ok && here < |input| && known ==> whole == Done(value, here + 1, printed + [AskDriverType])
    ensures ok && here < |input| && value == [] ==>
      whole == Prepend(printed + [AskDriverType], DriverLoop(input, here + 1))
    ensures ok && here < |input| && !known && value != [] ==>
      whole == Prepend(printed + [AskDriverType] + [UnrecognizedDriverType(value)], DriverLoop(input, here + 1))
  {
    if ok && here < |input| {
      PrependTwice(printed, [AskDriverType], DriverLoop(input, here + 1));
      PrependTwice(printed, [AskDriverType, UnrecognizedDriverType(value)], DriverLoop(input, here + 1));
      assert printed + [AskDriverType] + [UnrecognizedDriverType(value)] == printed + [AskDriverType, UnrecognizedDriverType(value)];
    }
  }

  /** One read of the confirmation loop inside a run `whole`: `ok` and `c`
      are what the read and the trim produced from buffer `held` at input
      position `here`, and `v` is the verdict on `c`. */
  lemma ConfirmStep(input: seq<Read>, here: nat, held: string, whole: Run<Decision>, printed: seq<Event>,
                    ok: bool, c: string, v: Verdict)
    requires whole == Prepend(printed, ConfirmLoop(input, here, held))
    requires here < |input| ==> ok == input[here].Line? && (ok ==> c == Trim(held + input[here].text))
    requires here >= |input| ==> ok && c == Trim(held)
    requires v == Judge(c)
    ensures !ok ==> whole == Failed(printed)
    ensures ok && v.Decided? ==> whole == Done(v.decision, if here < |input| then here + 1 else here, printed)
    ensures ok && !v.Decided? && here >= |input| ==> whole == Stuck(printed + [Complaint(v)])
    ensures ok && !v.Decided? && here < |input| ==>
      whole == Prepend(printed + [Complaint(v)], ConfirmLoop(input, here + 1, c))
  {
    assert printed + [] == printed;
    if ok && !v.Decided? && here < |input| {
      PrependTwice(printed, [Complaint(v)], ConfirmLoop(input, here + 1, c));
    }
  }

  lemma AppendAssociates<T>(a: seq<T>, b: seq<T>, c: seq<T>)
    ensures (a + b) + c == a + (b + c)
  {
  }

  /** The status, answers and new state of the wizard correspond to the end
      of a run of the collection phase: confirmed answers, `exit(2)`, waiting
      for ever, or a panic. */
  ghost predicate SameEnd(r: Run<Ending>, status: Status, answers: Answers, cursor: nat, printed: seq<Event>) {
    r == ObserveEnd(status, answers, cursor, printed)
  }

  function ObserveEnd(status: Status, answers: Answers, cursor: nat, printed: seq<Event>): Run<Ending> {
    match status
    case Proceed => Done(Confirmed(answers), cursor, printed)
    case Exit2 => Done(ExitRequested, cursor, printed)
    case Hang => Stuck(printed)
    case IoPanic => Failed(printed)
  }

  /** After one round inside the run `whole`: a round that retries leaves
      the rest of the outer loop to do, with the answers it had and further
      on in the input; any other round ends the run. */
  lemma CollectAfterRound(input: seq<Read>, pos: nat, a: Answers, whole: Run<Ending>, before: seq<Event>,
                          status: Status, d: Decision, b: Answers, cursor: nat, printed: seq<Event>)
    requires pos <= |input| && whole == Prepend(before, Collect(input, pos, a))
    requires SameRun(Round(input, pos, a), status, (d, b), cursor, printed)
    ensures if status == Proceed && d == Retry then
        pos < cursor <= |input| && whole == Prepend(before + printed, Collect(input, cursor, b))
      else SameEnd(whole, if status == Proceed && d == Quit then Exit2 else status, b, cursor, before + printed)
  {
    if status == Proceed && d == Retry {
      PrependTwice(before, printed, Collect(input, cursor, b));
    }
  }

  /** The mutable state of `main` while it talks to the user: the three
      answer buffers, the `editing` flag, the input read so far, and the
      messages printed. */
  class Wizard {
    const input: seq<Read>
    var cursor: nat
    var crateName: string
    var driverType: string
    var vcsType: string
    var editing: bool
    var log: seq<Event>

    constructor (input: seq<Read>)
      ensures this.input == input && cursor == 0 && editing && log == []
      ensures crateName == [] && driverType == [] && vcsType == []
    {
      this.input := input;
      cursor := 0;
      crateName, driverType, vcsType := [], [], [];
      editing := true;
      log := [];
    }

    /** `stdin().read_line(&mut buf)`: appends the next line, or nothing at
        end of input; a failed read reports `ok == false`. */
    method ReadLine(buf: string) returns (ok: bool, appended: string)
      modifies this`cursor
      ensures old(cursor) < |input| ==> cursor == old(cursor) + 1 && ok == input[old(cursor)].Line?
      ensures old(cursor) < |input| && ok ==> appended == buf + input[old(cursor)].text
      ensures old(cursor) >= |input| ==> cursor == old(cursor) && ok && appended == buf
    {
      if cursor < |input| {
        var r := input[cursor];
        cursor := cursor + 1;
        if r.ReadError? {
          return false, buf;
        }
        return true, buf + r.text;
      }
      return true, buf;
    }

    /** Print the prompt `ask`, then `read_line` into an empty buffer and
        trim and lower-case what it holds. `whole` is the run of the loop this
        read belongs to, `printed` what that loop has printed so far; the
        ensures say how the run goes on from here. */
    method ReadLowercase(ask: Event, ghost whole: Run<string>, ghost printed: seq<Event>) returns (ok: bool, value: string)
      requires whole == Prepend(printed, LowercaseLoop(input, cursor, ask))
      modifies this`cursor, this`log
      ensures log == old(log) + [ask]
      ensures cursor == if old(cursor) < |input| then old(cursor) + 1 else old(cursor)
      ensures !ok ==> whole == Failed(printed + [ask])
      ensures ok && old(cursor) >= |input| ==> whole == Stuck(printed + [ask])
      ensures ok && old(cursor) < |input| && value == [] ==>
        whole == Prepend(printed + [ask], LowercaseLoop(input, cursor, ask))
      ensures ok && old(cursor) < |input| && value != [] ==> whole == Done(value, cursor, printed + [ask])
    {
      log := log + [ask];
      var here := cursor;
      var line;
      ok, line := ReadLine([]);
      if here < |input| {
        assert ok ==> line == input[here].text;
        value := ToLower(Trim(line));
        LowercaseStep(input, here, ask, whole, printed, ok, value);
      } else {
        value := ToLower(Trim(line));
        LowercaseStep(input, here, ask, whole, printed, ok, value);
      }
    }

    /** `while value.is_empty() { prompt; read; trim; lower-case }` for the
        crate name and the VCS type. */
    method CollectLowercase(ask: Event, value0: string) returns (status: Status, value: string, ghost printed: seq<Event>)
      modifies this`cursor, this`log
      ensures log == old(log) + printed
      ensures SameRun(if value0 == [] then LowercaseLoop(input, old(cursor), ask) else Skip(value0, old(cursor)),
        status, value, cursor, printed)
    {
      ghost var log0 := log;
      ghost var whole := if value0 == [] then LowercaseLoop(input, cursor, ask) else Skip(value0, cursor);
      printed := [];
      assert value0 == [] ==> whole == Prepend(printed, LowercaseLoop(input, cursor, ask)) by {
        assert [] + whole.log == whole.log;
      }
      value := value0;
      while value == []
        invariant log == log0 + printed
        invariant value == [] ==> whole == Prepend(printed, LowercaseLoop(input, cursor, ask))
        invariant value != [] ==> SameRun(whole, Proceed, value, cursor, printed)
        decreases |input| - cursor
      {
        var atEnd := cursor >= |input|;
        var ok;
        ok, value := ReadLowercase(ask, whole, printed);
        AppendAssociates(log0, printed, [ask]);
        printed := printed + [ask];
        if !ok {
          return IoPanic, value, printed;
        }
        if atEnd {
          return Hang, value, printed;
        }
      }
      return Proceed, value, printed;
    }

    /** Print the driver-type prompt, then `read_line` into the empty buffer
        and trim and upper-case what it holds; `known` tells whether that is
        one of the three driver types. As for ReadLowercase, the ensures say
        how the run `whole` of the loop goes on. */
    method ReadUppercase(ghost whole: Run<string>, ghost printed: seq<Event>) returns (ok: bool, value: string, known: bool)
      requires whole == Prepend(printed, DriverLoop(input, cursor))
      modifies this`cursor, this`log
      ensures log == old(log) + [AskDriverType]
      ensures cursor == if old(cursor) < |input| then old(cursor) + 1 else old(cursor)
      ensures !ok ==> whole == Failed(printed + [AskDriverType])
      ensures ok && old(cursor) >= |input| ==> whole == Stuck(printed + [AskDriverType])
      ensures ok && old(cursor) < |input| && known ==> whole == Done(value, cursor, printed + [AskDriverType])
      ensures ok && old(cursor) < |input| && value == [] ==>
        whole == Prepend(printed + [AskDriverType], DriverLoop(input, cursor))
      ensures ok && old(cursor) < |input| && !known && value != [] ==>
        whole == Prepend(printed + [AskDriverType] + [UnrecognizedDriverType(value)], DriverLoop(input, cursor))
    {
      log := log + [AskDriverType];
      var here := cursor;
      var line;
      ok, line := ReadLine([]);
      if here < |input| {
        assert ok ==> line == input[here].text;
        value := ToUpper(Trim(line));
        known := IsDriverType(value);
        DriverStep(input, here, whole, printed, ok, value, known);
      } else {
        value := ToUpper(Trim(line));
        known := IsDriverType(value);
        DriverStep(input, here, whole, printed, ok, value, known);
      }
    }

    /** The driver-type loop: `while driver_type.is_empty()`, clearing the
        buffer after an unrecognised answer. */
    method CollectDriverType(value0: string) returns (status: Status, value: string, ghost printed: seq<Event>)
      modifies this`cursor, this`log
      ensures log == old(log) + printed
      ensures SameRun(if value0 == [] then DriverLoop(input, old(cursor)) else Skip(value0, old(cursor)),
        status, value, cursor, printed)
    {
      ghost var log0 := log;
      ghost var whole := if value0 == [] then DriverLoop(input, cursor) else Skip(value0, cursor);
      printed := [];
      assert value0 == [] ==> whole == Prepend(printed, DriverLoop(input, cursor)) by {
        assert [] + whole.log == whole.log;
      }
      value := value0;
      while value == []
        invariant log == log0 + printed
        invariant value == [] ==> whole == Prepend(printed, DriverLoop(input, cursor))
        invariant value != [] ==> SameRun(whole, Proceed, value, cursor, printed)
        decreases |input| - cursor
      {
        var atEnd := cursor >= |input|;
        var ok, known;
        ok, value, known := ReadUppercase(whole, printed);
        AppendAssociates(log0, printed, [AskDriverType]);
        printed := printed + [AskDriverType];
        if !ok {
          return IoPanic, value, printed;
        }
        if atEnd {
          return Hang, value, printed;
        }
        if !known && value != [] {
          log := log + [UnrecognizedDriverType(value)];
          AppendAssociates(log0, printed, [UnrecognizedDriverType(value)]);
          printed := printed + [UnrecognizedDriverType(value)];
          value := [];
        }
      }
      return Proceed, value, printed;
    }

    /** The three field loops of one outer iteration. */
    method AskFields() returns (status: Status, ghost printed: seq<Event>)
      requires cursor <= |input|
      modifies this`cursor, this`log, this`crateName, this`driverType, this`vcsType
      ensures log == old(log) + printed
      ensures SameRun(Fields(input, old(cursor), Answers(old(crateName), old(driverType), old(vcsType))),
        status, Answers(crateName, driverType, vcsType), cursor, printed)
    {
      var value;
      ghost var l1, l2, l3;
      status, value, l1 := CollectLowercase(AskName, crateName);
      crateName := value;
      printed := l1;
      if status != Proceed {
        assert [] + l1 == l1;
        return;
      }
      status, value, l2 := CollectDriverType(driverType);
      driverType := value;
      AppendAssociates(old(log), l1, l2);
      printed := l1 + l2;
      if status != Proceed {
        return;
      }
      status, value, l3 := CollectLowercase(AskVcs, vcsType);
      vcsType := value;
      AppendAssociates(old(log), l1 + l2, l3);
      printed := l1 + l2 + l3;
    }

    /** `read_line` into the confirmation buffer, then trim it and judge the
        result; the ensures say how the run `whole` of the confirmation loop
        goes on. */
    method ReadTrimmed(buf: string, ghost whole: Run<Decision>, ghost printed: seq<Event>)
      returns (ok: bool, trimmed: string, v: Verdict)
      requires whole == Prepend(printed, ConfirmLoop(input, cursor, buf))
      modifies this`cursor
      ensures cursor == if old(cursor) < |input| then old(cursor) + 1 else old(cursor)
      ensures !ok ==> whole == Failed(printed)
      ensures ok && v.Decided? ==> whole == Done(v.decision, cursor, printed)
      ensures ok && !v.Decided? && old(cursor) >= |input| ==> whole == Stuck(printed + [Complaint(v)])
      ensures ok && !v.Decided? && old(cursor) < |input| ==>
        whole == Prepend(printed + [Complaint(v)], ConfirmLoop(input, cursor, trimmed))
    {
      var here := cursor;
      var held;
      ok, held := ReadLine(buf);
      if here < |input| {
        assert ok ==> held == buf + input[here].text;
        trimmed := Trim(held);
        v := Judge(trimmed);
        ConfirmStep(input, here, buf, whole, printed, ok, trimmed, v);
      } else {
        trimmed := Trim(held);
        v := Judge(trimmed);
        ConfirmStep(input, here, buf, whole, printed, ok, trimmed, v);
      }
    }

    /** The confirmation loop with its own buffer, created empty. */
    method Confirm() returns (status: Status, decision: Decision, ghost printed: seq<Event>)
      modifies this`cursor, this`log
      ensures log == old(log) + printed
      ensures SameRun(ConfirmLoop(input, old(cursor), []), status, decision, cursor, printed)
    {
      ghost var log0 := log;
      ghost var whole := ConfirmLoop(input, cursor, []);
      printed := [];
      var confirmation: string := [];
      assert whole == Prepend(printed, ConfirmLoop(input, cursor, confirmation)) by {
        assert [] + whole.log == whole.log;
      }
      while true
        invariant log == log0 + printed
        invariant whole == Prepend(printed, ConfirmLoop(input, cursor, confirmation))
        decreases |input| - cursor
      {
        var atEnd := cursor >= |input|;
        var ok, v;
        ok, confirmation, v := ReadTrimmed(confirmation, whole, printed);
        if !ok {
          return IoPanic, Accept, printed;
        }
        if v.Decided? {
          return Proceed, v.decision, printed;
        }
        log := log + [Complaint(v)];
        AppendAssociates(log0, printed, [Complaint(v)]);
        printed := printed + [Complaint(v)];
        if atEnd {
          return Hang, Accept, printed;
        }
      }
    }

    /** One iteration of the outer loop: the field loops, the summary and
        the confirmation. */
    method Iterate() returns (status: Status, decision: Decision, ghost printed: seq<Event>)
      requires cursor <= |input|
      modifies this`cursor, this`log, this`crateName, this`driverType, this`vcsType
      ensures log == old(log) + printed
      ensures SameRun(Round(input, old(cursor), Answers(old(crateName), old(driverType), old(vcsType))),
        status, (decision, Answers(crateName, driverType, vcsType)), cursor, printed)
    {
      ghost var l1, l2;
      decision := Accept;
      status, l1 := AskFields();
      if status != Proceed {
        assert [] + l1 == l1;
        return status, decision, l1;
      }
      var s := [Summary(crateName, driverType, vcsType)];
      log := log + s;
      status, decision, l2 := Confirm();
      AppendAssociates(old(log), l1, s);
      AppendAssociates(old(log), l1 + s, l2);
      printed := l1 + s + l2;
    }

    /** The outer `while editing` loop (src/main.rs:146-241). */
    method Run() returns (status: Status)
      requires cursor == 0 && editing && log == []
      requires crateName == [] && driverType == [] && vcsType == []
      modifies this
      ensures SameEnd(RunWizard(input), status, Answers(crateName, driverType, vcsType), cursor, log)
    {
      ghost var whole := RunWizard(input);
      assert whole == Prepend(log, Collect(input, cursor, Answers(crateName, driverType, vcsType))) by {
        assert [] + whole.log == whole.log;
      }
      status := Proceed;
      while editing
        invariant cursor <= |input|
        invariant editing ==> whole == Prepend(log, Collect(input, cursor, Answers(crateName, driverType, vcsType)))
        invariant !editing ==> status == Proceed && SameEnd(whole, Proceed, Answers(crateName, driverType, vcsType), cursor, log)
        decreases editing, |input| - cursor
      {
        ghost var pos := cursor;
        ghost var a := Answers(crateName, driverType, vcsType);
        ghost var before := log;
        var decision;
        ghost var printed;
        status, decision, printed := Iterate();
        CollectAfterRound(input, pos, a, whole, before, status, decision, Answers(crateName, driverType, vcsType), cursor, printed);
        if status != Proceed {
          return;
        }
        match decision
        case Accept =>
          editing := false;
        case Quit =>
          return Exit2;
        case Retry =>
      }
    }
  }
}
