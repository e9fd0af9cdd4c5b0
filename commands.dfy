/** The command state machine of the vimdo list editor, as values: the
    state the engine keeps, what one key does to it, and what the command
    loop shows between keys. The class Engine.Vimdo is proved to follow
    these functions. */
module Commands {
  import opened Entries

  /** The modes of the engine (InputStates). Help and TextInput exist but
      no command ever switches to them. */
  datatype InputState = Exiting | Command | Help | TextInput

  datatype Option<T> = None | Some(value: T)

  /** What a failing command raises. The first two messages are the
      engine's own; the last three are those of Python's list pop and
      list subscript. */
  datatype Error =
    | MissingIndex
    | InvalidIndex(k: nat)
    | PopFromEmpty
    | PopOutOfRange
    | GetOutOfRange

  datatype Result<T> = Ok(value: T) | Err(error: Error)

  /** The state the command loop works on: the entries, the numeric
      prefix typed so far, and the mode. */
  datatype State = State(entries: seq<Entry>, prefix: string, mode: InputState)

  /** The state of a freshly started engine. */
  const Initial := State([], "", Command)

  const Digits := "0123456789"

  predicate IsDigit(c: char) {
    '0' <= c <= '9'
  }

  predicate AllDigits(s: string) {
    forall i :: 0 <= i < |s| ==> IsDigit(s[i])
  }

  /** Python's `key in "0123456789"` on strings: `key` occurs as a
      contiguous piece of the digit string (the empty key included). */
  predicate IsDigitKey(key: string)
    ensures IsDigitKey(key) ==> |key| <= |Digits|
  {
    exists i :: 0 <= i <= |Digits| && key <= Digits[i..]
  }

  function DigitValue(c: char): (d: nat)
    requires IsDigit(c)
    ensures d < 10
  {
    (c - '0') as nat
  }

  function DigitChar(d: nat): (c: char)
    requires d < 10
    ensures IsDigit(c) && DigitValue(c) == d
  {
    '0' + d as char
  }

  /** The number a string of decimal digits denotes, leading zeros allowed. */
  function DecimalValue(s: string): nat
    requires AllDigits(s)
  {
    if s == [] then 0
    else DecimalValue(s[..|s| - 1]) * 10 + DigitValue(s[|s| - 1])
  }

  /** The most digits Python's int() converts from a string by default
      (sys.int_max_str_digits). */
  const MaxStrDigits := 4300

  /** Python's int() on the numeric prefix. The prefix only ever holds
      ASCII digits, and on such strings int() fails exactly when the
      string is empty or longer than MaxStrDigits digits. */
  function ParseDecimal(s: string): (r: Option<nat>)
    ensures r.Some? <==> s != [] && AllDigits(s) && |s| <= MaxStrDigits
  {
    if s != [] && AllDigits(s) && |s| <= MaxStrDigits then Some(DecimalValue(s)) else None
  }

  /** Python's str() on a non-negative int: decimal digits with no
      leading zero. */
  function NatToDecimal(n: nat): (s: string)
    ensures s != [] && AllDigits(s)
    ensures |s| > 1 ==> s[0] != '0'
  {
    if n < 10 then [DigitChar(n)] else NatToDecimal(n / 10) + [DigitChar(n % 10)]
  }

  /** The digits str() gives for n denote n. */
  lemma {:induction false} DecimalOfNatToDecimal(n: nat)
    ensures DecimalValue(NatToDecimal(n)) == n
  {
    var s := NatToDecimal(n);
    if n < 10 {
      assert s[..|s| - 1] == [];
    } else {
      DecimalOfNatToDecimal(n / 10);
      assert s[..|s| - 1] == NatToDecimal(n / 10);
    }
  }

  /** The text shown for an error: str() of the exception raised. The
      message of InvalidIndex(k) spells out k in decimal. */
  function Message(e: Error): (m: string)
    ensures e.InvalidIndex? ==>
      && |m| > 17 && m[..16] == "Invalid index! (" && m[|m| - 1] == ')'
      && AllDigits(m[16..|m| - 1]) && DecimalValue(m[16..|m| - 1]) == e.k
  {
    match e
    case MissingIndex => "Please specify entry index first!"
    case InvalidIndex(k) =>
      DecimalOfNatToDecimal(k);
      var digits := NatToDecimal(k);
      var m := "Invalid index! (" + digits + ")";
      assert m[16..|m| - 1] == digits;
      m
    case PopFromEmpty => "pop from empty list"
    case PopOutOfRange => "pop index out of range"
    case GetOutOfRange => "list index out of range"
  }

  /** Python's normalisation of a list index `i` into a list of length
      `n`: a negative index counts from the end; anything outside
      -n <= i < n is out of range. */
  function PyIndex(i: int, n: nat): (r: Option<nat>)
    ensures r.Some? <==> -(n as int) <= i < n
    ensures r.Some? ==> r.value < n && (r.value == i || r.value == i + n)
  {
    if 0 <= i < n then Some(i)
    else if -(n as int) <= i < 0 then Some(i + n)
    else None
  }

  /** _parse_and_reset_index: parses the prefix as the 1-based index k,
      clears the prefix once it parsed (before the range check), rejects
      only k - 1 > n and yields the 0-based index k - 1. Gives the new
      prefix and the outcome. */
  function ResolveIndex(prefix: string, n: nat): (r: (string, Result<int>))
    ensures ParseDecimal(prefix).None? ==> r == (prefix, Err(MissingIndex))
    ensures ParseDecimal(prefix).Some? ==> r.0 == ""
    ensures r.1.Ok? ==> -1 <= r.1.value <= n
  {
    match ParseDecimal(prefix)
    case None => (prefix, Err(MissingIndex))
    case Some(k) =>
      if k - 1 > n then ("", Err(InvalidIndex(k))) else ("", Ok(k - 1))
  }

  /** The `d` command: removes the entry the prefix designates. On
      success exactly one entry is gone and the prefix is empty; a failure
      keeps the entries. The mode never changes. */
  function Delete(s: State): (r: (State, Result<()>))
    ensures r.0.mode == s.mode
    ensures r.1.Ok? ==> |r.0.entries| + 1 == |s.entries| && r.0.prefix == ""
    ensures r.1.Err? ==> r.0.entries == s.entries
  {
    var (prefix, index) := ResolveIndex(s.prefix, |s.entries|);
    var s1 := s.(prefix := prefix);
    match index
    case Err(e) => (s1, Err(e))
    case Ok(i) =>
      match PyIndex(i, |s.entries|)
      case None => (s1, Err(if s.entries == [] then PopFromEmpty else PopOutOfRange))
      case Some(j) => (s1.(entries := s.entries[..j] + s.entries[j + 1..]), Ok(()))
  }

  /** The `e` command: gives the entry the prefix designates the title
      `text` read from the text box. The number of entries and every
      body stay; on success some entry carries the title `text`, the
      prefix is empty and the mode is Command; a failure keeps the entries
      and the mode. */
  function Edit(s: State, text: string): (r: (State, Result<()>))
    ensures |r.0.entries| == |s.entries|
    ensures forall j :: 0 <= j < |s.entries| ==> r.0.entries[j].data == s.entries[j].data
    ensures r.1.Ok? ==> r.0.prefix == "" && r.0.mode == Command
    ensures r.1.Ok? ==> exists j :: 0 <= j < |s.entries| && r.0.entries[j].title == text
    ensures r.1.Err? ==> r.0.entries == s.entries && r.0.mode == s.mode
  {
    var (prefix, index) := ResolveIndex(s.prefix, |s.entries|);
    var s1 := s.(prefix := prefix);
    match index
    case Err(e) => (s1, Err(e))
    case Ok(i) =>
      match PyIndex(i, |s.entries|)
      case None => (s1, Err(GetOutOfRange))
      case Some(j) =>
        (s1.(entries := s.entries[j := Entry(text, s.entries[j].data)], mode := Command), Ok(()))
  }

  /** _parse_and_run_command: what one key does. `text` is what the
      single-line text box returns when the command asks for a title;
      commands that do not ask for one ignore it. The state after a
      failure keeps every change made before the failure. Only `d` and
      `e` can fail, and a failure keeps entries and mode; the prefix is
      kept, cleared, or extended by the key. */
  function Step(s: State, key: string, text: string): (r: (State, Result<()>))
    ensures r.1.Err? ==> (key == "d" || key == "e") && r.0.entries == s.entries && r.0.mode == s.mode
    ensures r.0.prefix == s.prefix || r.0.prefix == "" || r.0.prefix == s.prefix + key
  {
    if key == "q" then
      (s.(mode := Exiting), Ok(()))
    else if key == "h" then
      // the help screen waits for one key and then discards it
      (s, Ok(()))
    else if key == "n" then
      // the text box switches the mode back to Command
      (s.(entries := s.entries + [Entry(text, "")], mode := Command), Ok(()))
    else if IsDigitKey(key) then
      (s.(prefix := s.prefix + key), Ok(()))
    else if key == "d" then
      Delete(s)
    else if key == "e" then
      Edit(s, text)
    else
      (s, Ok(()))
  }

  /** The prompt the loop shows before reading a key: the prefix, or the
      message of the error the previous key raised, in brackets after
      COMMAND. CommandLemmas.PromptShows states what it shows. */
  function Prompt(prefix: string, errored: Option<Error>): string
  {
    "COMMAND [" + (if errored.None? then prefix else Message(errored.value)) + "]"
  }

  /** One key press and the text the text box would return if the
      command asks for one. */
  datatype Event = Event(key: string, text: string)

  /** Where the command loop stands after a run: the state, the error
      it would show next, the prompts shown, and the keys read. */
  datatype Trace = Trace(state: State, errored: Option<Error>, prompts: seq<string>, consumed: nat)

  /** The loop of `run` fed with `events`: while in Command mode it shows
      the prompt, reads the next key and runs it, remembering the error
      (if any) for the next prompt. It ends when the mode is Exiting or
      the events run out; in Help or TextInput mode the loop would spin
      without reading a key, so the trace ends there too. */
  function RunLoop(s: State, errored: Option<Error>, events: seq<Event>): (t: Trace)
    decreases |events|
    ensures t.consumed <= |events| && |t.prompts| == t.consumed
  {
    if s.mode != Command || events == [] then Trace(s, errored, [], 0)
    else
      var (s1, out) := Step(s, events[0].key, events[0].text);
      var rest := RunLoop(s1, if out.Ok? then None else Some(out.error), events[1..]);
      Trace(rest.state, rest.errored, [Prompt(s.prefix, errored)] + rest.prompts, rest.consumed + 1)
  }
}
