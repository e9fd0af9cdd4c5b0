# vimdo command engine in Dafny

vimdo is a keyboard-driven terminal editor for a list of notes. Its core is
the `Vimdo` object in `main.py`. It holds the list of entries, a numeric
prefix typed digit by digit, and a mode (`InputStates`). Its command loop
reads one key at a time and runs the key's command:

- `q` quits.
- `h` shows help.
- `n` appends a new entry.
- digits extend the prefix.
- `d` deletes the entry the prefix designates.
- `e` retitles the entry the prefix designates.

A failing command raises an exception. The loop catches it and shows its
message in the prompt in place of the prefix.

The project has four modules:

- `Entries` (entries.dfy): the value of an entry (`Entry`) and the mutable
  `ListEntry` object the engine keeps in its list.
- `Commands` (commands.dfy): the engine's state as a value. It holds:
  - `Step`, what one key does;
  - `RunLoop`, what the loop does with a sequence of keys;
  - the helpers they use: Python's `int()` on the prefix (`ParseDecimal`),
    `str()` on an int (`NatToDecimal`) and list-index normalisation
    (`PyIndex`).
  Exceptions become `Err` values. The state a failing command leaves
  behind keeps the changes made before the exception, such as the cleared
  prefix.
- `CommandLemmas` (command_lemmas.dfy): what each key promises, proved of
  `Step` and `RunLoop`.
- `Engine` (vimdo.dfy): the class `Vimdo` with the source's three fields.
  Its methods update the fields and the `ListEntry` objects in place, and
  each is proved against the matching function on the abstract state
  `Model()`:
  - `ParseAndRunCommand` and `RunKey` follow `Step`;
  - `DeleteCommand` follows `Delete`, and `EditCommand` follows `Edit`;
  - `ParseAndResetIndex` follows `ResolveIndex`;
  - `Run` follows `RunLoop`.
  `SetState` and `GetSingleLineInput` only set the mode; their contracts
  say so directly.

The index arithmetic is modelled as written in `_parse_and_reset_index`:

- A prefix `k` is cleared as soon as it parses.
- Only `k - 1 > len` is rejected.
- The list is then accessed with Python semantics at `k - 1`.

So `k = len + 1` passes the check, but `pop` or the subscript then fails
without changing the list. `k = 0` addresses the last entry of a non-empty
list (`ZeroPrefixAddressesLast`).

The digit test `key in "0123456789"` is a Python substring test. It is
modelled as such (`IsDigitKey`), so the empty key and keys such as `"12"`
count as digit keys as well.

## Model

| member | source | states |
|---|---|---|
| Entries.ListEntry.constructor | main.py:16-18 | a new entry holds the given title and body |
| Entries.ListEntry.SetTitle | main.py:28-29 | replaces the title in place and keeps the body |
| Entries.ListEntry.SetData | main.py:31-32 | replaces the body in place and keeps the title |
| Entries.ListEntry.NewEntry | main.py:34-36 | returns a fresh entry, shared with no one, holding the given title and body |
| Entries.RemoveAt | main.py:99 | removing the object at k from a list of distinct entries keeps them distinct and removes exactly the value at k |
| Commands.IsDigitKey | main.py:94 | a key passes the substring test only if it is at most ten characters long |
| Commands.ParseDecimal | main.py:131 | int() on the prefix succeeds exactly when the prefix is a non-empty string of digits of at most 4300 digits, Python's default limit on string-to-int conversion |
| Commands.NatToDecimal | main.py:134 | str() of the index is a non-empty string of digits with no leading zero |
| Commands.DecimalOfNatToDecimal | main.py:134 | the digits str() gives for k denote k |
| Commands.Message | main.py:133-137 | the message of InvalidIndex(k) is "Invalid index! (", the digits of k, and ")"; MissingIndex gives "Please specify entry index first!"; the others are the Python runtime's list messages |
| Commands.PyIndex | main.py:99 | a Python list index i is accepted exactly when -n <= i < n; the position it gives is below n and is i, or i + n for a negative i |
| Commands.ResolveIndex | main.py:129-137 | an unparsable prefix fails with MissingIndex and is kept; a parsed prefix is cleared; a successful index lies in -1..len |
| Commands.Delete | main.py:97-99 | on success exactly one entry is gone and the prefix is empty; a failure keeps the entries; the mode never changes |
| Commands.Edit | main.py:101-109 | the count of entries and every body stay; on success some entry carries the typed title, the prefix is empty and the mode is Command; a failure keeps the entries and the mode |
| Commands.Step | main.py:82-111 | only `d` and `e` can fail, and a failure keeps entries and mode; the prefix is kept, cleared, or extended by the key |
| Commands.RunLoop | main.py:64-80 | the loop reads at most the keys it is given and shows one prompt per key read |
| CommandLemmas.DigitKeyIff | main.py:94 | a one-character key is a digit key exactly when it is a decimal digit |
| CommandLemmas.DigitKeyOnlyDigits | main.py:94 | every key that passes the digit test is made of digits only |
| CommandLemmas.DigitAppendsToPrefix | main.py:94-95 | a digit key appends that digit to the prefix, a leading zero included, and changes nothing else |
| CommandLemmas.StepKeepsPrefixDigits | main.py:94-95 | every key keeps the prefix a string of digits |
| CommandLemmas.NewAppendsEntry | main.py:87-92 | `n` adds exactly one entry, titled with the typed text and with an empty body, keeps the earlier entries and the prefix, and leaves the engine in Command mode |
| CommandLemmas.DeleteRemovesEntry | main.py:97-99 | `d` with 1 <= k <= len removes exactly the k-th entry, keeps the rest in order and clears the prefix |
| CommandLemmas.EditReplacesTitle | main.py:101-109 | `e` with 1 <= k <= len sets the k-th title to the typed text; its body, the other entries and the length stay, and the prefix is cleared |
| CommandLemmas.MissingPrefixFails | main.py:129-137 | `d` or `e` with an empty prefix fails with "Please specify entry index first!" and changes nothing |
| CommandLemmas.ParsedPrefixIsCleared | main.py:131-132 | once the prefix parses, `d` and `e` clear it, whatever happens next |
| CommandLemmas.TooLongPrefixFails | main.py:129-137 | `d` or `e` with a prefix longer than 4300 digits fails with "Please specify entry index first!" and changes nothing, the prefix included |
| CommandLemmas.IndexTooLargeFails | main.py:133-134 | k - 1 > len fails with "Invalid index! (k)"; only the prefix changes |
| CommandLemmas.IndexOnePastEndFails | main.py:97-103 | k = len + 1 passes the range check but the list access fails; only the prefix changes |
| CommandLemmas.ZeroPrefixAddressesLast | main.py:129-135 | a prefix of 0 makes `d` remove and `e` retitle the last entry of a non-empty list, and fails on an empty one |
| CommandLemmas.QuitExits | main.py:83-84 | `q` switches to Exiting and changes nothing else |
| CommandLemmas.OtherKeysChangeNothing | main.py:85-86 | `h` and every key that is no command leave entries, prefix and mode as they are; an unknown key does not clear the prefix |
| CommandLemmas.StepFailsIff | main.py:82-111 | a key fails exactly when it is `d` or `e` and the prefix does not resolve to an index the list accepts |
| CommandLemmas.StepModeFromCommand | main.py:83-84 | from Command mode a key leads to Exiting exactly when it is `q`, and to Command otherwise |
| CommandLemmas.StepLength | main.py:87-99 | `n` adds one entry, a successful `d` removes one, and no other key changes the count |
| CommandLemmas.NatToDecimalRoundTrip | main.py:134 | the index shown in "Invalid index! (k)" reads back as k whenever it has at most 4300 digits |
| CommandLemmas.RunLoopKeepsInvariant | main.py:64-80 | the loop keeps the prefix a string of digits and stops only in Command or Exiting mode |
| CommandLemmas.RunLoopStopsAtQuit | main.py:64 | a `q` ends the loop in Exiting mode, and no key after it is read |
| CommandLemmas.PromptShows | main.py:71-73 | the prompt reads "COMMAND [", then the prefix when no error is pending or the error's message otherwise, then "]" |
| CommandLemmas.RunLoopPromptAfterKey | main.py:71-80 | after a successful key the prompt shows the prefix; after a failed key it shows the error's message |
| CommandLemmas.RunLoopAppend | main.py:64-80 | running two batches of keys one after the other is running their concatenation |
| CommandLemmas.TypingDigits | main.py:94-95 | typing digits one key at a time appends them to the prefix and touches nothing else |
| CommandLemmas.IndexThenDelete | main.py:94-99 | typing the digits of k and then `d` removes the k-th entry for every 1 <= k <= len |
| CommandLemmas.TwelveThenDelete | main.py:94-99 | pressing 1, 2 and `d` with at least twelve entries removes the twelfth and moves the later ones up |
| Engine.Vimdo.constructor | main.py:52-55 | a new engine has no entries, an empty prefix and Command mode |
| Engine.Vimdo.SetState | main.py:159-160 | sets the mode and nothing else |
| Engine.Vimdo.GetSingleLineInput | main.py:139-152 | returns the text the user typed and puts the engine back in Command mode |
| Engine.Vimdo.ParseAndResetIndex | main.py:129-137 | updates the prefix and returns the index exactly as ResolveIndex says |
| Engine.Vimdo.ParseAndRunCommand | main.py:82-111 | updates entries, prefix and mode in place exactly as Step says, keeps the entries distinct and the prefix all digits |
| Engine.Vimdo.DeleteCommand | main.py:97-99 | pops the designated entry from the list in place, as Delete says |
| Engine.Vimdo.EditCommand | main.py:101-109 | retitles the designated entry object in place, as Edit says; the list itself is unchanged |
| Engine.Vimdo.RunKey | main.py:71-80 | one turn of the loop shows the prompt for the current prefix and pending error, and changes the state as Step says |
| Engine.Vimdo.Run | main.py:58-80 | the loop leaves the engine in the state RunLoop gives and returns the prompts it showed and the number of keys it read |

## Left out

- Terminal I/O is not modelled: window creation, drawing the entries, the prompts "Enter note title:", "Editing entry number …" and the help text, refreshing, and cursor visibility (main.py:40-50, 58-60, 113-127, 154-157). `Commands.Prompt` gives only the text of the command prompt.
- Errors the drawing itself could raise (`curses.error`) are not modelled. Each turn of the loop in `run` first clears the main window, draws the entries, refreshes the windows, draws the command prompt and reads the key (main.py:65-74); all of this happens before the `try` at main.py:76, so an error there ends the program. The drawing done by the commands runs inside the `try`: the title prompt (main.py:88, 105), the pre-filled title (main.py:107), the help screen (main.py:123-127) and the cursor switches (main.py:140, 148). An error there would be caught and shown in the next prompt, possibly after the prefix was cleared and before the title was set.
- The model does not limit the prompt to the width of the command window, which is one line of COLS-2 cells (main.py:42-44). In the program, a prompt that reaches the window's last cell makes `addstr` raise outside the `try`, and the program stops. This happens for a prefix of COLS-12 digits or more, or after an "Invalid index! (k)" whose k has COLS-29 digits or more (68 and 51 on an 80-column terminal). `Run` and `RunLoop` go on in both cases. So the failure `TooLongPrefixFails` describes is reachable only on a terminal more than 4300 columns wide.
- The text box (`Textbox.edit` and `gather`) is a foreign library. The text it returns is a parameter (`text`), with no constraint on it. The program pre-fills the text box with the old title (main.py:107), and `gather` (main.py:144) reads that title back unless the user deletes it, so the old title is part of the returned text by default. The model is not affected, because `text` is unconstrained.
- `getkey` becomes the sequence `events` given to `Run`. When the events run out, the model stops; the program would block waiting for a key.
- The key that the help screen waits for (main.py:127) is discarded by the program and is not drawn from `events`.
- In Help or TextInput mode the program's loop would spin forever without reading a key. No command enters these modes; only `SetState` can. `Run` and `RunLoop` stop there instead.
- Python's `int()` also accepts surrounding whitespace, a sign, underscores and non-ASCII digits. The prefix only ever holds ASCII digits (`StepKeepsPrefixDigits`, and `Valid` in `Engine.Vimdo`), so `ParseDecimal` rejects everything else.
- `ParseDecimal` uses Python's default limit of 4300 digits for string-to-int conversion. A limit changed through `sys.set_int_max_str_digits` or `PYTHONINTMAXSTRDIGITS` is not modelled. Neither are interpreters without the limit: those before 3.11, and those before the patch releases 3.10.7, 3.9.14, 3.8.14 and 3.7.14.
- The messages of the `IndexError`s raised by `list.pop` and list subscripts come from the Python runtime, not from main.py.
- The numeric values of `InputStates` (-1 to 2) are not modelled, only which mode is which.
- The `title` and `data` properties of `ListEntry` are read as fields.
- `main`, the `wrapper` call and the commented-out older loop (main.py:163-259) are not part of this model.
- Saving and loading, a line-based file format, Enter to edit a body, ESC to clear the prefix, ignoring a leading zero, trimming titles and an "unknown command" error are not in main.py's code, so they are not modelled. For the same reason, the index check is the one main.py performs, not the bound 1 <= k <= len.
