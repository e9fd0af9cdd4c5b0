/** The command engine of vimdo: the object that owns the list of
    entries, the numeric prefix and the mode, and updates them in place
    key by key. Each method is proved against the matching function on
    the engine's abstract state: ParseAndRunCommand and RunKey follow
    Commands.Step, DeleteCommand follows Commands.Delete, EditCommand
    follows Commands.Edit, ParseAndResetIndex follows
    Commands.ResolveIndex and Run follows Commands.RunLoop. SetState and
    GetSingleLineInput only set the mode. */
module Engine {
  import opened Entries
  import opened Commands
  import opened CommandLemmas

  class Vimdo {
    var incompleteEntries: seq<ListEntry>
    var inputState: InputState
    var inputNumber: string

    /** The entries are distinct objects, so retitling one leaves the
        others alone, and the prefix holds digits only. */
    ghost predicate Valid()
      reads this
    {
      && Distinct(incompleteEntries)
      && AllDigits(inputNumber)
    }

    /** The abstract state: entry values, prefix and mode. */
    ghost function Model(): State
      reads this, set e | e in incompleteEntries
    {
      State(Values(incompleteEntries), inputNumber, inputState)
    }

    /** A new engine: no entries, no prefix, Command mode. */
    constructor ()
      ensures Valid() && Model() == Initial
    {
      incompleteEntries := [];
      inputState := Command;
      inputNumber := "";
    }

    method SetState(newState: InputState)
      modifies this`inputState
      ensures inputState == newState
    {
      inputState := newState;
    }

    /** The single-line text box: `text` is what the user typed. Leaving
        the box puts the engine back in Command mode. */
    method GetSingleLineInput(text: string) returns (input: string)
      modifies this`inputState
      ensures input == text && inputState == Command
    {
      input := text;
      inputState := Command;
    }

    /** Consumes the prefix as a 1-based index and yields the 0-based
        index; the prefix is cleared as soon as it parses. */
    method ParseAndResetIndex() returns (index: Result<int>)
      modifies this`inputNumber
      ensures (inputNumber, index) == ResolveIndex(old(inputNumber), |incompleteEntries|)
    {
      match ParseDecimal(inputNumber)
      case None =>
        index := Err(MissingIndex);
      case Some(k) =>
        inputNumber := "";
        if k - 1 > |incompleteEntries| {
          index := Err(InvalidIndex(k));
        } else {
          index := Ok(k - 1);
        }
    }

    /** Runs the command bound to `key`; `text` is what the text box
        returns if the command asks for a title. A failure keeps the
        changes made before it (the cleared prefix). */
    method ParseAndRunCommand(key: string, text: string) returns (out: Result<()>)
      requires Valid()
      modifies this, set e | e in incompleteEntries
      ensures Valid()
      ensures (Model(), out) == Step(old(Model()), key, text)
      ensures forall e :: e in incompleteEntries ==> e in old(incompleteEntries) || fresh(e)
    {
      out := Ok(());
      if key == "q" {
        inputState := Exiting;
      } else if key == "h" {
        // the help screen only draws and waits for a key
      } else if key == "n" {
        var title := GetSingleLineInput(text);
        var entry := ListEntry.NewEntry(title, "");
        incompleteEntries := incompleteEntries + [entry];
        assert Values(incompleteEntries) == old(Values(incompleteEntries)) + [Entry(text, "")];
      } else if IsDigitKey(key) {
        DigitKeyOnlyDigits(key);
        inputNumber := inputNumber + key;
      } else if key == "d" {
        out := DeleteCommand();
      } else if key == "e" {
        out := EditCommand(text);
      }
    }

    /** `d`: removes the entry at the index the prefix designates. */
    method DeleteCommand() returns (out: Result<()>)
      requires Valid()
      modifies this`incompleteEntries, this`inputNumber
      ensures Valid()
      ensures (Model(), out) == Delete(old(Model()))
      ensures forall e :: e in incompleteEntries ==> e in old(incompleteEntries)
    {
      var index := ParseAndResetIndex();
      if index.Err? {
        return Err(index.error);
      }
      var j := PyIndex(index.value, |incompleteEntries|);
      if j.None? {
        return Err(if incompleteEntries == [] then PopFromEmpty else PopOutOfRange);
      }
      var k := j.value;
      RemoveAt(incompleteEntries, k);
      incompleteEntries := incompleteEntries[..k] + incompleteEntries[k + 1..];
      out := Ok(());
    }

    /** `e`: gives the entry at the index the prefix designates the title
        `text` read from the text box; the entry object is updated in
        place. */
    method EditCommand(text: string) returns (out: Result<()>)
      requires Valid()
      modifies this`inputNumber, this`inputState, set e | e in incompleteEntries
      ensures Valid() && incompleteEntries == old(incompleteEntries)
      ensures (Model(), out) == Edit(old(Model()), text)
    {
      var index := ParseAndResetIndex();
      if index.Err? {
        return Err(index.error);
      }
      var j := PyIndex(index.value, |incompleteEntries|);
      if j.None? {
        return Err(GetOutOfRange);
      }
      ghost var before := Values(incompleteEntries);
      var entry := incompleteEntries[j.value];
      var newTitle := GetSingleLineInput(text);
      entry.SetTitle(newTitle);
      assert Values(incompleteEntries) == before[j.value := Entry(text, before[j.value].data)];
      out := Ok(());
    }

    /** One turn of the loop in `run`: the prompt it shows before reading
        `event`, and the outcome of the command the key runs. */
    method RunKey(event: Event, errored: Option<Error>) returns (prompt: string, out: Result<()>)
      requires Valid()
      modifies this, set e | e in incompleteEntries
      ensures Valid()
      ensures prompt == Prompt(old(Model()).prefix, errored)
      ensures (Model(), out) == Step(old(Model()), event.key, event.text)
      ensures forall e :: e in incompleteEntries ==> e in old(incompleteEntries) || fresh(e)
    {
      prompt := Prompt(inputNumber, errored);
      out := ParseAndRunCommand(event.key, event.text);
    }

    /** The command loop of `run`, fed with `events`. It returns the
        prompts shown before each key and the number of keys read. */
    method Run(events: seq<Event>) returns (prompts: seq<string>, consumed: nat)
      requires Valid()
      modifies this, set e | e in incompleteEntries
      ensures Valid()
      ensures var t := RunLoop(old(Model()), None, events);
        Model() == t.state && prompts == t.prompts && consumed == t.consumed
    {
      var errored: Option<Error> := None;
      prompts, consumed := [], 0;
      ghost var total := RunLoop(Model(), None, events);
      while inputState != Exiting && consumed < |events|
        invariant Valid()
        invariant consumed <= |events|
        invariant forall e :: e in incompleteEntries ==> e in old(incompleteEntries) || fresh(e)
        invariant var rest := RunLoop(Model(), errored, events[consumed..]);
          total == Trace(rest.state, rest.errored, prompts + rest.prompts, consumed + rest.consumed)
        decreases |events| - consumed
      {
        if inputState != Command {
          // in Help or TextInput mode the loop would spin without reading a key
          break;
        }
        ghost var before, promptsBefore := Model(), prompts;
        var prompt, out := RunKey(events[consumed], errored);
        prompts := prompts + [prompt];
        RunLoopAdvance(total, promptsBefore, consumed, events, before, errored, Model(), out);
        errored := if out.Ok? then None else Some(out.error);
        consumed := consumed + 1;
      }
    }
  }
}
