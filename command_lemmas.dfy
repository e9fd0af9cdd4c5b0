/** What the keys of the command state machine promise, proved of
    Commands.Step and Commands.RunLoop. */
module CommandLemmas {
  import opened Entries
  import opened Commands

  /** A single decimal digit is a digit key, and every digit key is made
      of digits only, so the prefix never holds anything else. */
  lemma DigitKeyIff(c: char)
    ensures IsDigitKey([c]) <==> IsDigit(c)
  {
    if IsDigit(c) {
      var i := DigitValue(c);
      DigitAt(i);
      assert [c] <= Digits[i..];
    }
    if IsDigitKey([c]) {
      DigitKeyOnlyDigits([c]);
      assert [c][0] == c;
    }
  }

  /** The digit string holds the digits in order. Stated on its own so
      that the proofs using it can name the character at a given index. */
  lemma DigitAt(i: nat)
    requires i < |Digits|
    ensures Digits[i] == DigitChar(i)
  {
  }

  /** A key that starts with anything but a digit is no digit key. */
  lemma NonDigitIsNoDigitKey(key: string)
    requires key != [] && !IsDigit(key[0])
    ensures !IsDigitKey(key)
  {
    forall i | 0 <= i <= |Digits| ensures !(key <= Digits[i..]) {
      if i < |Digits| {
        DigitAt(i);
      }
    }
  }

  lemma DigitKeyOnlyDigits(key: string)
    requires IsDigitKey(key)
    ensures AllDigits(key)
  {
    var i :| 0 <= i <= |Digits| && key <= Digits[i..];
    forall j | 0 <= j < |key| ensures IsDigit(key[j]) {
      assert key[j] == Digits[i + j];
      DigitAt(i + j);
    }
  }

  /** A digit key appends that digit to the prefix, a leading zero
      included, and changes nothing else. */
  lemma DigitAppendsToPrefix(s: State, c: char, text: string)
    requires IsDigit(c)
    ensures Step(s, [c], text) == (s.(prefix := s.prefix + [c]), Ok(()))
  {
    DigitKeyIff(c);
  }

  /** Every key keeps the prefix a string of digits. */
  lemma StepKeepsPrefixDigits(s: State, key: string, text: string)
    requires AllDigits(s.prefix)
    ensures AllDigits(Step(s, key, text).0.prefix)
  {
    if key !in {"q", "h", "n"} && IsDigitKey(key) {
      DigitKeyOnlyDigits(key);
      assert forall i :: 0 <= i < |key| ==> (s.prefix + key)[|s.prefix| + i] == key[i];
    }
  }

  /** `n` appends one entry with the typed title and an empty body;
      the earlier entries, the prefix and the index are untouched. */
  lemma NewAppendsEntry(s: State, text: string)
    ensures var (s', out) := Step(s, "n", text);
      && out == Ok(())
      && |s'.entries| == |s.entries| + 1
      && s'.entries[|s.entries|] == Entry(text, "")
      && s'.entries[..|s.entries|] == s.entries
      && s'.prefix == s.prefix
      && s'.mode == Command
  {
    assert (s.entries + [Entry(text, "")])[..|s.entries|] == s.entries;
  }

  /** `d` with a prefix denoting 1 <= k <= |entries| removes exactly the
      k-th entry, keeps the others in order and clears the prefix. */
  lemma DeleteRemovesEntry(s: State, k: nat, text: string)
    requires ParseDecimal(s.prefix) == Some(k)
    requires 1 <= k <= |s.entries|
    ensures var (s', out) := Step(s, "d", text);
      && out == Ok(())
      && s'.prefix == ""
      && s'.mode == s.mode
      && |s'.entries| == |s.entries| - 1
      && (forall j :: 0 <= j < k - 1 ==> s'.entries[j] == s.entries[j])
      && (forall j :: k - 1 <= j < |s'.entries| ==> s'.entries[j] == s.entries[j + 1])
  {
    NotDigitKeys();
    var j := k - 1;
    assert PyIndex(j, |s.entries|) == Some(j);
  }

  lemma NotDigitKeys()
    ensures !IsDigitKey("d") && !IsDigitKey("e")
  {
    NonDigitIsNoDigitKey("d");
    NonDigitIsNoDigitKey("e");
  }

  /** `e` with a prefix denoting 1 <= k <= |entries| replaces the title of
      the k-th entry only; its body, the other entries and the length
      stay, and the prefix is cleared. */
  lemma EditReplacesTitle(s: State, k: nat, text: string)
    requires ParseDecimal(s.prefix) == Some(k)
    requires 1 <= k <= |s.entries|
    ensures var (s', out) := Step(s, "e", text);
      && out == Ok(())
      && s'.prefix == ""
      && s'.mode == Command
      && |s'.entries| == |s.entries|
      && s'.entries[k - 1] == Entry(text, s.entries[k - 1].data)
      && (forall j :: 0 <= j < |s.entries| && j != k - 1 ==> s'.entries[j] == s.entries[j])
  {
    NotDigitKeys();
    assert PyIndex(k - 1, |s.entries|) == Some(k - 1);
  }

  /** `d` and `e` without a prefix fail with MissingIndex and change
      nothing at all. */
  lemma MissingPrefixFails(s: State, key: string, text: string)
    requires key == "d" || key == "e"
    requires s.prefix == ""
    ensures Step(s, key, text) == (s, Err(MissingIndex))
  {
    NotDigitKeys();
  }

  /** Once the prefix parses, `d` and `e` clear it, whether or not the
      index then turns out to be out of range. */
  lemma ParsedPrefixIsCleared(s: State, key: string, text: string)
    requires key == "d" || key == "e"
    requires ParseDecimal(s.prefix).Some?
    ensures Step(s, key, text).0.prefix == ""
  {
    NotDigitKeys();
  }

  /** A prefix longer than int() converts makes `d` and `e` fail as if
      no index had been typed, and the prefix is kept. */
  lemma TooLongPrefixFails(s: State, key: string, text: string)
    requires key == "d" || key == "e"
    requires |s.prefix| > MaxStrDigits
    ensures Step(s, key, text) == (s, Err(MissingIndex))
  {
    NotDigitKeys();
  }

  /** An index past the one the check lets through fails with
      InvalidIndex(k); the entries and the mode stay. */
  lemma IndexTooLargeFails(s: State, key: string, k: nat, text: string)
    requires key == "d" || key == "e"
    requires ParseDecimal(s.prefix) == Some(k)
    requires k - 1 > |s.entries|
    ensures Step(s, key, text) == (s.(prefix := ""), Err(InvalidIndex(k)))
  {
    NotDigitKeys();
  }

  /** k = |entries| + 1 passes the range check, but the list access then
      fails; the entries and the mode stay and the prefix is cleared. */
  lemma IndexOnePastEndFails(s: State, key: string, text: string)
    requires key == "d" || key == "e"
    requires ParseDecimal(s.prefix) == Some(|s.entries| + 1)
    ensures Step(s, key, text) ==
      (s.(prefix := ""),
       Err(if key == "e" then GetOutOfRange
           else if s.entries == [] then PopFromEmpty
           else PopOutOfRange))
  {
    NotDigitKeys();
  }

  /** A prefix of zero gives the index -1, which addresses the last entry
      of a non-empty list: `d` removes it and `e` retitles it. On an empty
      list both fail and nothing but the prefix changes. */
  lemma ZeroPrefixAddressesLast(s: State, key: string, text: string)
    requires key == "d" || key == "e"
    requires ParseDecimal(s.prefix) == Some(0)
    ensures var (s', out) := Step(s, key, text);
      && s'.prefix == ""
      && (s.entries == [] ==> out.Err? && s'.entries == s.entries)
      && (s.entries != [] ==>
            out == Ok(()) &&
            s'.entries == (if key == "d" then s.entries[..|s.entries| - 1]
                           else s.entries[|s.entries| - 1 := Entry(text, s.entries[|s.entries| - 1].data)]))
  {
    NotDigitKeys();
    if s.entries != [] {
      var n := |s.entries|;
      assert PyIndex(-1, n) == Some(n - 1);
      assert s.entries[..n - 1] + s.entries[n..] == s.entries[..n - 1];
    }
  }

  /** `q` switches to Exiting; nothing else changes. */
  lemma QuitExits(s: State, text: string)
    ensures Step(s, "q", text) == (s.(mode := Exiting), Ok(()))
  {
  }

  /** `h` and every key that is no command leave the state as it is; an
      unknown key does not clear the prefix. */
  lemma OtherKeysChangeNothing(s: State, key: string, text: string)
    requires key !in {"q", "n", "d", "e"}
    requires !IsDigitKey(key)
    ensures Step(s, key, text) == (s, Ok(()))
  {
  }

  /** A key fails exactly when it is `d` or `e` and the prefix does not
      resolve to an index the list accepts. */
  lemma StepFailsIff(s: State, key: string, text: string)
    ensures Step(s, key, text).1.Err? <==>
      (key == "d" || key == "e") &&
      (ParseDecimal(s.prefix).None? ||
       PyIndex(ParseDecimal(s.prefix).value - 1, |s.entries|).None?)
  {
    NotDigitKeys();
  }

  /** From Command mode a key leads to Exiting exactly when it is `q`,
      and to Command otherwise. */
  lemma StepModeFromCommand(s: State, key: string, text: string)
    requires s.mode == Command
    ensures Step(s, key, text).0.mode == (if key == "q" then Exiting else Command)
  {
  }

  /** How a key changes the number of entries. */
  lemma StepLength(s: State, key: string, text: string)
    ensures var (s', out) := Step(s, key, text);
      |s'.entries| ==
        if key == "n" then |s.entries| + 1
        else if key == "d" && out.Ok? then |s.entries| - 1
        else |s.entries|
  {
    NotDigitKeys();
  }

  /** str() then int() gives n back, as long as str() stays within
      int()'s digit limit. */
  lemma NatToDecimalRoundTrip(n: nat)
    requires |NatToDecimal(n)| <= MaxStrDigits
    ensures ParseDecimal(NatToDecimal(n)) == Some(n)
  {
    DecimalOfNatToDecimal(n);
  }

  /** The loop keeps the prefix a string of digits and, started in
      Command mode, only ever stops in Command or Exiting mode. */
  lemma {:induction false} RunLoopKeepsInvariant(s: State, errored: Option<Error>, events: seq<Event>)
    requires AllDigits(s.prefix) && s.mode == Command
    decreases |events|
    ensures AllDigits(RunLoop(s, errored, events).state.prefix)
    ensures RunLoop(s, errored, events).state.mode in {Command, Exiting}
  {
    if events != [] {
      var (s1, out) := Step(s, events[0].key, events[0].text);
      StepKeepsPrefixDigits(s, events[0].key, events[0].text);
      StepModeFromCommand(s, events[0].key, events[0].text);
      if s1.mode == Command {
        RunLoopKeepsInvariant(s1, if out.Ok? then None else Some(out.error), events[1..]);
      }
    }
  }

  /** One turn of the loop: show the prompt, run the first key, go on
      with the rest. */
  lemma RunLoopTurn(s: State, errored: Option<Error>, events: seq<Event>, s1: State, out: Result<()>)
    requires s.mode == Command && events != []
    requires (s1, out) == Step(s, events[0].key, events[0].text)
    ensures var rest := RunLoop(s1, if out.Ok? then None else Some(out.error), events[1..]);
      RunLoop(s, errored, events) ==
        Trace(rest.state, rest.errored, [Prompt(s.prefix, errored)] + rest.prompts, rest.consumed + 1)
  {
  }

  /** The invariant of the loop in Engine.Vimdo.Run carried across one
      key: `total` is the whole trace, `shown` the prompts shown so far
      and `n` the keys read so far. */
  lemma RunLoopAdvance(total: Trace, shown: seq<string>, n: nat, events: seq<Event>,
                       s: State, errored: Option<Error>, s1: State, out: Result<()>)
    requires n < |events| && s.mode == Command
    requires (s1, out) == Step(s, events[n].key, events[n].text)
    requires var rest := RunLoop(s, errored, events[n..]);
      total == Trace(rest.state, rest.errored, shown + rest.prompts, n + rest.consumed)
    ensures var rest := RunLoop(s1, if out.Ok? then None else Some(out.error), events[n + 1..]);
      total == Trace(rest.state, rest.errored, (shown + [Prompt(s.prefix, errored)]) + rest.prompts, n + 1 + rest.consumed)
  {
    RunLoopTurn(s, errored, events[n..], s1, out);
    assert events[n..][1..] == events[n + 1..];
    ConcatAssoc(shown, [Prompt(s.prefix, errored)],
      RunLoop(s1, if out.Ok? then None else Some(out.error), events[n + 1..]).prompts);
  }

  /** A `q` among the events ends the loop in Exiting mode, with no key
      after it read. */
  lemma {:induction false} RunLoopStopsAtQuit(s: State, errored: Option<Error>, events: seq<Event>, i: nat)
    requires s.mode == Command
    requires i < |events| && events[i].key == "q"
    decreases i
    ensures RunLoop(s, errored, events).state.mode == Exiting
    ensures RunLoop(s, errored, events).consumed <= i + 1
  {
    var (s1, out) := Step(s, events[0].key, events[0].text);
    StepModeFromCommand(s, events[0].key, events[0].text);
    if i > 0 && s1.mode == Command {
      RunLoopStopsAtQuit(s1, if out.Ok? then None else Some(out.error), events[1..], i - 1);
    }
  }

  /** The prompt reads "COMMAND [", then the prefix when no error is
      pending and the error's message otherwise, then "]". */
  lemma PromptShows(prefix: string, errored: Option<Error>)
    ensures var p := Prompt(prefix, errored);
      && |p| >= 10 && p[..9] == "COMMAND [" && p[|p| - 1] == ']'
      && (errored.None? ==> p[9..|p| - 1] == prefix)
      && (errored.Some? ==> p[9..|p| - 1] == Message(errored.value))
  {
    var shown := if errored.None? then prefix else Message(errored.value);
    var p := Prompt(prefix, errored);
    assert p[9..|p| - 1] == shown;
  }

  /** The prompt after a key shows the prefix when the key succeeded and
      the error's message when it failed. */
  lemma RunLoopPromptAfterKey(s: State, errored: Option<Error>, events: seq<Event>)
    requires s.mode == Command && |events| >= 2
    requires events[0].key != "q"
    ensures var (s1, out) := Step(s, events[0].key, events[0].text);
      var t := RunLoop(s, errored, events);
      && |t.prompts| >= 2
      && t.prompts[0] == Prompt(s.prefix, errored)
      && t.prompts[1] == "COMMAND [" + (if out.Ok? then s1.prefix else Message(out.error)) + "]"
  {
    StepModeFromCommand(s, events[0].key, events[0].text);
  }

  /** The key presses that type the digits of `ds`, one digit per key. */
  function DigitEvents(ds: string): (es: seq<Event>)
    ensures |es| == |ds|
    ensures forall i :: 0 <= i < |ds| ==> es[i] == Event([ds[i]], "")
  {
    if ds == [] then [] else [Event([ds[0]], "")] + DigitEvents(ds[1..])
  }

  /** Running two batches of keys one after the other is running their
      concatenation, as long as the loop read all of the first batch. */
  lemma {:induction false} RunLoopAppend(s: State, errored: Option<Error>, a: seq<Event>, b: seq<Event>)
    requires RunLoop(s, errored, a).consumed == |a|
    decreases |a|
    ensures var t1 := RunLoop(s, errored, a);
      var t2 := RunLoop(t1.state, t1.errored, b);
      RunLoop(s, errored, a + b) == Trace(t2.state, t2.errored, t1.prompts + t2.prompts, t1.consumed + t2.consumed)
  {
    if a == [] {
      assert a + b == b;
    } else {
      var r := Step(s, a[0].key, a[0].text);
      var e1 := if r.1.Ok? then None else Some(r.1.error);
      var ab := a + b;
      assert ab[0] == a[0] && ab[1..] == a[1..] + b;
      RunLoopTurn(s, errored, a, r.0, r.1);
      var rest1 := RunLoop(r.0, e1, a[1..]);
      assert rest1.consumed == |a[1..]|;
      RunLoopAppend(r.0, e1, a[1..], b);
      RunLoopTurn(s, errored, ab, r.0, r.1);
      var t2 := RunLoop(rest1.state, rest1.errored, b);
      ConcatAssoc([Prompt(s.prefix, errored)], rest1.prompts, t2.prompts);
    }
  }

  /** Associativity of concatenation, stated on its own because the
      solver finds it slowly inside the larger proofs that need it. */
  lemma ConcatAssoc<T>(x: seq<T>, y: seq<T>, z: seq<T>)
    ensures x + (y + z) == (x + y) + z
  {
  }

  /** Typing the digits of `ds` in Command mode appends them to the
      prefix, reads every key and leaves entries and mode alone. */
  lemma {:induction false} TypingDigits(s: State, errored: Option<Error>, ds: string)
    requires s.mode == Command && AllDigits(ds)
    decreases |ds|
    ensures var t := RunLoop(s, errored, DigitEvents(ds));
      t.state == s.(prefix := s.prefix + ds) && t.consumed == |ds|
  {
    if ds != [] {
      DigitAppendsToPrefix(s, ds[0], "");
      var s1 := s.(prefix := s.prefix + [ds[0]]);
      RunLoopTurn(s, errored, DigitEvents(ds), s1, Ok(()));
      assert DigitEvents(ds)[1..] == DigitEvents(ds[1..]);
      TypingDigits(s1, None, ds[1..]);
      ConcatAssoc(s.prefix, [ds[0]], ds[1..]);
      assert [ds[0]] + ds[1..] == ds;
    }
  }

  /** Typing the index k as digits and then `d` removes the k-th entry,
      for every 1 <= k <= |entries|, and leaves the prefix empty. */
  lemma IndexThenDelete(s: State, errored: Option<Error>, ds: string, text: string)
    requires s.mode == Command && s.prefix == ""
    requires ds != [] && AllDigits(ds) && |ds| <= MaxStrDigits
    requires 1 <= DecimalValue(ds) <= |s.entries|
    ensures var k := DecimalValue(ds);
      var t := RunLoop(s, errored, DigitEvents(ds) + [Event("d", text)]);
      t.state == s.(entries := s.entries[..k - 1] + s.entries[k..], prefix := "")
  {
    var k := DecimalValue(ds);
    TypingDigits(s, errored, ds);
    RunLoopThenKey(s, errored, DigitEvents(ds), Event("d", text));
    assert s.prefix + ds == ds;
    DeleteRemovesEntry(s.(prefix := ds), k, text);
  }

  /** When the loop reads every key of `a` and is still in Command mode,
      one more key does what Step says to the state `a` leads to. */
  lemma RunLoopThenKey(s: State, errored: Option<Error>, a: seq<Event>, event: Event)
    requires RunLoop(s, errored, a).consumed == |a|
    requires RunLoop(s, errored, a).state.mode == Command
    ensures var t := RunLoop(s, errored, a);
      RunLoop(s, errored, a + [event]).state == Step(t.state, event.key, event.text).0
  {
    RunLoopAppend(s, errored, a, [event]);
    var t := RunLoop(s, errored, a);
    RunLoopOneKey(t.state, t.errored, event);
  }

  /** In Command mode, the loop fed a single key ends in the state that
      key's command leaves. */
  lemma RunLoopOneKey(s: State, errored: Option<Error>, event: Event)
    requires s.mode == Command
    ensures RunLoop(s, errored, [event]).state == Step(s, event.key, event.text).0
  {
    var r := Step(s, event.key, event.text);
    RunLoopTurn(s, errored, [event], r.0, r.1);
    assert [event][1..] == [];
  }

  /** Pressing 1, 2 and d with at least twelve entries removes the
      twelfth and moves the later ones up by one. */
  lemma TwelveThenDelete(s: State, errored: Option<Error>, events: seq<Event>, text: string)
    requires s.mode == Command && s.prefix == "" && |s.entries| >= 12
    requires events == [Event("1", ""), Event("2", ""), Event("d", text)]
    ensures RunLoop(s, errored, events).state.entries == s.entries[..11] + s.entries[12..]
  {
    var ds := "12";
    assert DecimalValue(ds) == 12 by {
      assert ds[..1] == "1";
      assert "1"[..0] == [];
    }
    assert events == DigitEvents(ds) + [Event("d", text)] by {
      assert DigitEvents(ds)[0] == Event([ds[0]], "");
      assert DigitEvents(ds)[1] == Event([ds[1]], "");
    }
    IndexThenDelete(s, errored, ds, text);
  }
}
