# A model of the phone stress-test driver

The tool takes command lines from a console, from config files (`autoConfig`) and from up to ten
script threads (`runScript`), and turns them into messages for phones.  This project models that
path in Dafny and proves what it promises.

- `CStrings` is the C library's view of text: `strstr`, `snprintf` truncation, `strncasecmp`,
  `atoi`, `%d`.  `atoi` is read as `(int) strtol`, so a number that does not fit is clamped to
  64 bits and cut to 32; section 7.22.1.2 of ISO C11 leaves that case undefined.
- `Tokens` is `getTokens`: `strtok` cutting one static 256-byte buffer in place, with pointers as
  offsets into it, against a pure split.
- `Loader` is `fgets`, the line parser and `cpScriptContentToArray`.
- `Script`, `Meaning`, `Interpreter` and `Threads` are the script language: rows and structured
  programs, what a program means, the index machine of `scriptCmdProcess` with its loops, and the
  same machine as single steps, one `cmd_proc` call each.
- `KeyMap` is the key table.  `Commands` holds the command table, the messages, and `World`, the
  state commands work on.  `Effects` is the effect of one line, `Includes` the expansion of config
  files that run config files.  `KeyLists` is what ioevt makes of a list of keys.
- `Clients` is the registry of `at_network.c`, `Modes` the sender, receiver and script threads,
  each as a value with its invariant and as a class over the arrays of the source.
- `Moves` are the moves of the whole tool.  `Console` is `cmd_proc` with its handlers, and the
  other moves, over the shared buffer, `gCmdParam`, `gParamNum` and the tables of `Clients` and
  `Modes`.  It computes what `Effects`, `Includes` and `Moves` say.
- `Safety` collects what single commands promise; `System` proves what every run keeps, for every
  interleaving.
- `TypedLines` says what whole typed lines do, word by word, from their text to their effect.
- `Completion` is the generator of `readline.c`.

Conventions.  What the operating system decides is an argument: `Config.kernel` is the stream of
answers to `socket`, `pthread_create`, `msgsnd`, `rand` and the set-up of the message queue, and
`World.clock` counts the answers used.  A descriptor that is open, or the ID of a live thread, is
taken for a failure, so every stream describes a possible system; the ID of a thread that is gone
may come back.  `World` also keeps the offsets in `gCmdParam`, because commands read pointers left
by earlier lines, the lines handed to `cmd_proc`, the threads at the time of each message, and
the thread that runs the lines.  Where a method of `Console` or `ThreadTable` says that this
thread is not `alive` any more, that stands for `pthread_exit`: whoever called it returns at once.
One command line, and one script step up to and including its `cmd_proc` call, are atomic: the
source does not lock `gCmdParam`, `gParamNum` or the token buffer.  Starting a script thread,
registering its ID and loading its file count as one step.

Where the code does not do what its own texts say, or what one would expect, the model follows the
code, and the lemmas say exactly when:

- `quit` stops sender and receiver and leaves their IDs set, and only input that starts with `quit`
  ends the process.  After `q`, or after `quit` in a file, neither can be started again before a
  `stop`, and messages are queued that nobody reads (`QuitKeepsIds`, `QuitLeavesIds`, `QuitDeceives`).  A
  receiver that cannot open its socket (`core/src/autoTest.c`, lines 124-126) leaves its ID too.
- A `stop` that a script runs on itself ends the script in the signal handler
  (`core/src/autoTest.c`, lines 270-276), in the middle of the command: its ID stays set, its slot
  stays taken, and after `stop all` the scripts behind it go on (`StopKeeps`, `StopAllFromScript`,
  `ScriptStopsItself`).  No further line of that script is run (`NoMoreLines`).
- `stop` with one argument looks at a third token that an earlier line left: after
  `add 1 192.168.10.1`, `stop 1script` stops script 1 (`StopActsOnItsOwn`,
  `StopMistakesItsArgument`).
- A key list is cut to 19 characters, so an unknown key behind them is not noticed, and one that
  stands across the cut is read as another key (`KeysAsTyped`, `SentAsTyped`, `UnknownKeyIsSent`,
  `LastKeyIsCut`).
- A comment behind a command that runs past the 255 characters of its chunk can become a command
  of its own (`LoadPrint`, `LongNoteAddsRow`).
- `changeIp` is advertised as changing an address; `network_config` refuses a client that is in
  use (`core/src/at_network.c:116`), so it never changes anything (`ChangeIpIsRefused`).
- A loop without a `start` row of its own starts where an earlier loop did (`OwnStartRow`,
  `StaleStart`).
- A phone that reports itself suspended is removed without a look at its flag, which can close
  the socket of another client (`SuspendKeeps`, `SuspendClosesAnother`; the handler is the one at
  lines 244-254 of `core/src/autoTest.c`).
- The help text says a script may not hold a loop in a loop.  If the inner loop has a start row of
  its own in front of the first end row, that becomes the start of the body, and the inner loop row
  is skipped; if not, the inner loop row is part of the body and is handed to `cmd_proc`.

## Model

| member | source | states |
|---|---|---|
| CStrings.AtoiDecimal | core/src/at_cmdProc.c:951-958 | a number printed with %d and read back with atoi is the same number, for all an int can hold |
| CStrings.AtoiIs | core/src/at_cmdProc.c:361-384 | blanks, a sign, digits and anything else are read as the digits' value, from the last digit to the first, where it fits an int; else its lower half, and -1 or 0 beyond a long |
| Tokens.Split | core/src/at_cmdProc.c:252-267 | every token of the split is non-empty and free of the delimiter |
| Tokens.SplitJoin | core/src/at_cmdProc.c:258-263 | tokens joined by arbitrary runs of delimiters are given back by the split |
| Tokens.JoinSplit | core/src/at_cmdProc.c:258-263 | every text is the join of its own tokens, so the split loses nothing but the runs |
| Tokens.AtMostHalf | core/src/at_cmdProc.c:474-475 | a text of length L has at most (L+1)/2 tokens |
| Tokens.FieldsKeepOut | core/src/at_cmdProc.c:252-267 | a character that is not in a line is in none of its tokens |
| Tokens.FirstFifteen | core/include/at_cmdProc.h:32 | of tokens joined in up to 255 characters getTokens keeps all if there are at most 15, and else the first 15 |
| Tokens.First255 | core/include/at_cmdProc.h:20 | a longer line has the tokens of its first 255 characters |
| Tokens.TokenBuffer.Strtok | core/src/at_cmdProc.c:258-262 | strtok skips delimiters, overwrites the one delimiter behind the token and moves its saved position behind it; without a token the buffer stays |
| Tokens.TokenBuffer.NextToken | core/src/at_cmdProc.c:259-263 | a further strtok call leaves the tokens taken before readable at their offsets |
| Tokens.TokenBuffer.GetTokens | core/src/at_cmdProc.c:252-267 | the pointers are the offsets of the first 15 tokens of the first 255 characters and read them, in order and without overlap, the result is their number less one, other pointers stay, and the buffer is the text with only closing delimiters overwritten, all of them unless there are more tokens |
| Tokens.OldPointer | core/src/at_cmdProc.c:234-258 | a pointer left from an earlier line reads nothing, text with a delimiter in it, or the end of a token of the later line |
| Tokens.OldPointerReads | core/src/at_cmdProc.c:234-258 | it reads a given word exactly when it stands at the last characters of a token that ends in that word |
| Tokens.CutShort | core/src/at_cmdProc.c:510 | cutting a text short leaves its tokens as they are exactly when only delimiters are cut off |
| Loader.Reader.Fgets | core/src/at_cmdProc.c:196-198 | a chunk ends at a newline, at 255 characters or at the end of the file, and is followed by what is left |
| Loader.LoadIsRows | core/src/at_cmdProc.c:194-211 | every loaded row is shorter than 255, without semicolon, newline or NUL, and no comment |
| Loader.LoadAppend | core/src/at_cmdProc.c:194-211 | text behind a newline loads the same whatever stands before it |
| Loader.LineAddsNothing | core/src/at_cmdProc.c:199-210 | comments, blank lines and lines without semicolon add no row |
| Loader.LoadLine | core/src/at_cmdProc.c:194-211 | a printed command with a comment loads as that command followed by what spills into the next chunk |
| Loader.LoadPrint | core/src/at_cmdProc.c:194-213 | any list of commands, printed one a line with comments, loads as that list exactly when every 255-character piece a comment leaves for later chunks starts with # or has no semicolon in front of a NUL; otherwise rows are added |
| Loader.PlainNotes | core/src/at_cmdProc.c:194-213 | comments that stay in their line's first chunk, or hold no semicolon, are no trouble |
| Loader.LoadTwice | core/src/at_cmdProc.c:194-213 | printing what a text loads as and loading it again changes nothing, under exactly that condition on the comments |
| Loader.LongNoteAddsRow | core/src/at_cmdProc.c:196-206 | for example, a comment that fills the chunk and goes on with a command and a semicolon adds that command |
| Loader.LongestRow | core/src/at_cmdProc.c:196-209 | a command of up to 254 characters is loaded from its line, a longer one is not |
| Loader.LongestScript | core/include/at_cmdProc.h:21 | the script array has room for the rows of up to 500 such lines and no more |
| Loader.CpScriptContentToArray | core/src/at_cmdProc.c:181-214 | the array holds exactly the rows of the file, the rest of it is untouched, and the result is their number less one |
| Script.FlattenParse | core/src/at_cmdProc.c:1041-1098 | balanced rows are the rows of one well-formed program |
| Script.ParseFlatten | core/src/at_cmdProc.c:1041-1098 | the rows of a well-formed program parse as that program and no other |
| Script.KeywordRows | core/src/at_cmdProc.c:1042-1067 | a row is a loop, start or end row exactly when it begins with these letters, in either case |
| Meaning.RunsInSequence | core/src/at_cmdProc.c:1056-1085 | a script behind another issues its own trace and counts its own iterations, unless the first one aborts |
| Meaning.LoopRunsSoOften | core/src/at_cmdProc.c:1048-1085 | a row of a word that begins with loop, spaces and the number n > 0, then rows that are skipped, the last start row, a body and the first end row, issue the body n times in order and count n iterations, or none for an empty body |
| Meaning.LoopEndsScript | core/src/at_cmdProc.c:1052-1055 | with a number that is not positive nothing is issued and the script ends, whatever rows follow |
| Meaning.LoopRowFits | core/src/at_cmdProc.c:1048-1051 | the number and all spaces but one fit the row's parameter exactly when they have at most nine characters |
| Meaning.RepeatIs | core/src/at_cmdProc.c:1069-1084 | n copies of a body are n times as long, and each copy holds each row where it should |
| Meaning.LoopFreeMeans | core/src/at_cmdProc.c:1094-1097 | rows without loops are balanced and are their own trace |
| Meaning.LoopsUseUpEnds | core/src/at_cmdProc.c:1062-1085 | a script with a loop that runs issues fewer end rows than it has |
| Meaning.OwnTrace | core/src/at_cmdProc.c:1041-1098 | rows are their own trace exactly when none of them starts with loop |
| Meaning.Unrolling | core/src/at_cmdProc.c:1041-1098 | the unrolled script issues the same commands exactly when none of the commands starts with loop |
| Interpreter.OwnStartRow | core/src/at_cmdProc.c:1056-1068 | what an earlier loop left in loopStart makes no difference exactly when the loop has its own start row |
| Interpreter.StaleStart | core/src/at_cmdProc.c:1058-1085 | without one, the loop runs again from the earlier loop's start, its own loop row included |
| Interpreter.ScriptRun.ScanLoop | core/src/at_cmdProc.c:1056-1068 | the scan stops at the first end row inside the rows, and loopStart is behind the last start row before it, or as it was |
| Interpreter.ScriptRun.RunLoop | core/src/at_cmdProc.c:1069-1084 | the body is issued once for each iteration, each non-empty pass is counted up to INT_MAX, and no other counter changes |
| Interpreter.ScriptRun.SetCountOfScriptRun | core/src/at_cmdProc.c:288-294 | negative values are refused and other slots keep their counters |
| Interpreter.ScriptRun.Interpret | core/src/at_cmdProc.c:1039-1098 | the index machine issues exactly the trace of the structured program, counts its iterations, and stops early exactly at a loop whose count is not positive |
| Interpreter.ScriptRun.ScriptCmdProcess | core/src/at_cmdProc.c:1008-1106 | the thread issues the trace of its file from counter zero; without a file it issues nothing |
| Threads.StepAdvances | core/src/at_cmdProc.c:1041-1098 | each step issues the next line of what is ahead, completes the iterations it counts, reads inside the rows, and takes the thread exactly one step nearer its end |
| Threads.InitiallyAllAhead | core/src/at_cmdProc.c:1011-1039 | after loading the whole trace is ahead, whatever the uninitialised locals hold |
| Threads.Ends | core/src/at_cmdProc.c:1041-1106 | a balanced script ends after a number of steps known beforehand, no sooner, having issued all that was ahead |
| KeyMap.MatchIsUnique | core/src/keyMap.c:6-34 | no name or code stands in two slots, names and codes do not collide, and no text matches an empty slot |
| KeyMap.DigitKeys | core/src/keyMap.c:13-22 | a digit's code is the decimal number of its character |
| KeyMap.KeyTable.GetKeyCode | core/src/keyMap.c:35-45 | the search finds the one slot a name or code belongs to, or fails when there is none |
| Commands.GetCmdCode | core/src/at_cmdProc.c:241-251 | the result is the first entry with that name or nickname, and FAILED when there is none |
| Commands.SearchFinds | core/src/at_cmdProc.c:30-152 | the search gives each name and nickname the first entry that has it, and finds nothing under any other text |
| Commands.RunsUnder | core/src/at_cmdProc.c:30-152 | each command that does anything is found under its own two names and under no other text |
| Commands.SenderNames | core/src/at_cmdProc.c:30-152 | the commands that queue messages run only under their own two names |
| Commands.RandValueRange | core/src/at_cmdProc.c:268-276 | a random value lies from min up to but not including min + max |
| Commands.RandValueIs | core/src/at_cmdProc.c:268-276 | above min it is the whole part of max times the draw's share of 2147483648, and bad bounds give -1 |
| Commands.AllKeysAreDrawn | core/src/at_cmdProc.c:268-276 | every key index is drawn by some number |
| Commands.CallMsgIs | core/src/at_cmdProc.c:534-567 | call makes a message exactly with three tokens, a client from 0 to 9 and the sender's ID set: for that client, with its name and the first 59 characters of the third token |
| Commands.SyslogMsgIs | core/src/at_cmdProc.c:919-967 | syslog makes one under its full name exactly with three tokens or more, a client and the sender's ID: the third token, a fourth if it is the last, then the client and the port, cut to 59 characters |
| Commands.HideFeatureMsgIs | core/src/at_cmdProc.c:968-1006 | hideFeature the same with the first 59 characters of the third token |
| Effects.NextHit | core/src/at_cmdProc.c:881-888 | the draw randomKey settles on is the first one that hits a key |
| Effects.DrawsOn | core/src/at_cmdProc.c:881-888 | a draw that hits a key is the one, and any other draw is passed over |
| Effects.StopActsOnItsOwn | core/src/at_cmdProc.c:665-740 | stop with one argument does what its own tokens say exactly unless the argument ends in script, an older third pointer stands right there, and the argument is the number of a slot in use |
| Effects.StopMistakesItsArgument | core/src/at_cmdProc.c:721-733 | after add 1 192.168.10.1, the line stop 1script stops script 1 |
| KeyLists.TranslatesAllOrNothing | core/src/at_cmdProc.c:515-521 | a key list is translated exactly when every key is known, and then key by key in order |
| KeyLists.KeysFit | core/src/at_cmdProc.c:474-521 | at most ten keys come out of the 20-byte buffer and none is cut off by the limit of 15 |
| KeyLists.RowHoldsCode | core/src/at_cmdProc.c:516-520 | a key's code fits into the five bytes of its message row |
| KeyLists.ReEncode | core/src/at_cmdProc.c:510-521 | the codes of a message, given as a key list that fits, encode to the same codes |
| KeyLists.KeysAsTyped | core/src/at_cmdProc.c:510-511 | ioevt reads a key list as it was typed exactly when it is shorter than 20 characters or only commas follow the 19th |
| KeyLists.SentAsTyped | core/src/at_cmdProc.c:510-521 | the message, or its absence, is that of the whole list exactly when the list fits, or there is an unknown key both in what is read and in all of it, or the cut makes a 5 of a last 53 |
| KeyLists.IoevtIsAllOrNothing | core/src/at_cmdProc.c:466-533 | with such a list ioevt makes one message with the canonical name, the client, the action and the codes of all keys typed, or none when any of them is unknown |
| KeyLists.IoevtSendsWhatItReads | core/src/at_cmdProc.c:466-533 | with any list the same holds of the keys in its first 19 characters |
| KeyLists.UnknownKeyIsSent | core/src/at_cmdProc.c:510-525 | behind any list of 19 characters an unknown key goes unnoticed and the message is sent |
| KeyLists.LastKeyIsCut | core/src/at_cmdProc.c:510-520 | a 49 that stands across the cut presses the key 4 in place of the key 1 |
| Safety.KeyLineTokens | core/src/at_cmdProc.c:890-891 | the line randomKey prints fits its buffer and is tokenized into what was printed |
| Safety.RandomKeySendsOneKey | core/src/at_cmdProc.c:872-893 | in test mode randomKey queues exactly one message, for its client, with the code of the key drawn |
| Safety.ExecSendsWell | core/src/at_cmdProc.c:229-240 | a line leaves the queue alone or adds one well-formed message, and the latter only with the sender's ID set |
| Safety.ExecKeepsRegistry | core/src/at_cmdProc.c:229-240 | every line keeps the registry consistent |
| Safety.ExecKeepsThreads | core/src/at_cmdProc.c:229-240 | every line keeps live threads registered and buffers apart, and it keeps IDs and live threads matched exactly unless it is quit and there is a sender or a receiver, or a stop of the thread that runs it |
| Includes.ExecAppend | core/src/at_cmdProc.c:332-348 | lines run one list after another are the lines of both lists run |
| Includes.RunningRow | core/src/at_cmdProc.c:332-348 | a row of a config file takes the run on by exactly its own expansion |
| Includes.RowsInOrder | core/src/at_cmdProc.c:332-348 | rows expand in their order, each to its own lines |
| Includes.PlainRows | core/src/at_cmdProc.c:332-348 | rows that run no file expand to themselves |
| Includes.LineRunsFile | core/src/at_cmdProc.c:317-350 | a line that runs a file leaves the world its rows leave, handed to cmd_proc one by one |
| Includes.NoMoreLines | core/src/at_cmdProc.c:332-348 | a thread that has ended itself runs none of the lines left |
| Includes.ConfigIsScript | core/src/at_cmdProc.c:332-348 | a text run by autoConfig and the same text run as a script leave the same world when no row starts with loop, and only then, unless a row ends the thread that runs it |
| TypedLines.WrongCount | core/src/at_cmdProc.c:317-1006 | with the wrong number of words no command changes clients, threads, scripts or queue, and none runs a file |
| TypedLines.AddTyped | core/src/at_cmdProc.c:351-379 | the typed line add n ip, whatever follows, adds client n with that address and does nothing else |
| TypedLines.DelTyped | core/src/at_cmdProc.c:380-403 | del n deletes client n and does nothing else |
| TypedLines.ChangeIpTyped | core/src/at_cmdProc.c:404-433 | changeIp n ip acts on client n with that address and on nothing else |
| TypedLines.StartTyped | core/src/at_cmdProc.c:573-664 | start with one word does what that word says (`Modes.StartRuns`), to threads only |
| TypedLines.StopTyped | core/src/at_cmdProc.c:665-712 | stop all, stop test and stop rec do the same with and without a third word |
| TypedLines.StopScriptTyped | core/src/at_cmdProc.c:721-733 | stop n script ends the script in slot n |
| TypedLines.QuitTyped | core/src/at_cmdProc.c:741-761 | quit quits whatever follows it |
| TypedLines.RunScriptTyped | core/src/at_cmdProc.c:804-837 | runScript n f opens the file named by the first 59 characters of f and fills slot n and no other, from row 0 with counter 0 |
| TypedLines.RunScriptReads | core/src/at_cmdProc.c:804-837 | for a name under 60 characters, test mode on and slot n free, the slot's new thread reads exactly the rows of file f |
| TypedLines.AutoConfigTyped | core/src/at_cmdProc.c:317-348 | autoConfig f runs the file named by the first 59 characters of f: the line's expansion is the line and then what that file's rows expand to; without such a file it is the line alone |
| TypedLines.OnlyAutoConfigRunsFiles | core/src/at_cmdProc.c:317-331 | no other line runs a file |
| TypedLines.IoevtMsgIs | core/src/at_cmdProc.c:466-533 | ioevt makes a message exactly with four tokens, p or l, a client from 0 to 9, the sender's ID set and known keys: for that client, with that action and each key's code in order |
| TypedLines.SenderTyped | core/src/at_cmdProc.c:466-1006 | a line with ioevt, call, syslog or hideFeature adds exactly the message of its words at the end of the queue, if there is one and the system takes it |
| TypedLines.CallTyped | core/src/at_cmdProc.c:534-567 | call n number queues one message for client n with up to 59 characters of the number exactly when n is a client, the sender's ID is set and the system takes it |
| TypedLines.RandomKeyTyped | core/src/at_cmdProc.c:872-893 | randomKey n queues one press, on client n, of the first key drawn |
| Console.Console.Tokenize | core/src/at_cmdProc.c:232-233 | gCmdParam reads the line's tokens, gParamNum is their number less one, and the pointers behind the last token keep their value |
| Console.Console.EncodeKeys | core/src/at_cmdProc.c:509-521 | ten pointers are enough for the second pass over the shared buffer, and it yields the translation of the keys or nothing |
| Console.Console.IoevtCmd | core/src/at_cmdProc.c:466-533 | ioevt queues the message of its own tokens although it tokenizes over them |
| Console.Console.CallCmd | core/src/at_cmdProc.c:534-567 | call queues the message of its tokens, or none |
| Console.Console.SyslogConfCmd | core/src/at_cmdProc.c:919-967 | syslog queues the message of its tokens, or none |
| Console.Console.HideFeatureCmd | core/src/at_cmdProc.c:968-1006 | hideFeature queues the message of its tokens, or none |
| Console.Console.DelClientCmd | core/src/at_cmdProc.c:380-403 | del without a parameter changes nothing although it reads a pointer of an earlier line |
| Console.Console.StopCmd | core/src/at_cmdProc.c:665-740 | stop acts on its first argument and on what the third pointer reads, its own token or not, and ends where it kills the thread that runs it |
| Console.Console.QuitCmd | core/src/at_cmdProc.c:741-761 | quit ends sender and receiver and leaves their IDs set |
| Console.Console.NoTokenNoCommand | core/src/at_cmdProc.c:233-237 | after a line without tokens the older first pointer names no command |
| Console.Console.DrawKey | core/src/at_cmdProc.c:881-888 | the key drawn is populated and is the first populated one in the stream of draws |
| Console.Console.RandomKeyCmd | core/src/at_cmdProc.c:872-893 | randomKey has the effect of the ioevt line it prints, through a nested cmd_proc |
| Console.Console.AutoConfigCmd | core/src/at_cmdProc.c:317-350 | a config file runs the depth-first expansion of its include tree, and ends because included files rank lower |
| Console.Console.RunFile | core/src/at_cmdProc.c:332-348 | autoConfig's own copy of the line parser hands exactly the rows the loader would load to cmd_proc |
| Console.Console.CmdProc | core/src/at_cmdProc.c:229-240 | a line changes the world exactly as its expansion, line by line, does, although nested calls overwrite gCmdParam, gParamNum and the buffer |
| Console.Console.RunAsScript | core/src/at_cmdProc.c:1039-1098 | the loader and the index machine, with cmd_proc behind them, leave the world of the structured program's trace |
| Console.Console.StepScript | core/src/at_cmdProc.c:1041-1106 | a script's step, on the rows it reads through its buffer, moves its slot, or frees buffer and slot at the end |
| Console.Console.Make | core/src/at_cmdProc.c:1041-1106 | every move of the tool, a script's step with its cmd_proc call included, changes memory as the run of the system says, and a line that ends its own thread is the last one |
| Clients.ValidIpFits | core/src/at_network.c:41-49 | an accepted address has 7 to 15 characters, so its copy fits |
| Clients.DottedIsValid | core/src/at_network.c:120-133 | four numbers up to 255 with dots between them are a valid address, and its socket address has them in order, with port 5000 |
| Clients.ValidIsDotted | core/src/at_network.c:178-187 | there is no other valid address |
| Clients.AddTakesIn | core/src/at_cmdProc.c:351-379 | add changes nothing when the slot is used, the number out of range or the address not valid; a failed socket changes the slot's socket entry only; otherwise the slot is used, with that address, its socket address and the new socket, and no other slot changes |
| Clients.DelTakesOut | core/src/at_cmdProc.c:380-403 | del frees the slot of a client in use, clears its address and closes its socket, and changes nothing else; otherwise it changes nothing |
| Clients.DelUndoesAdd | core/src/at_cmdProc.c:380-403 | deleting a client just added restores flags, addresses and open sockets, with its socket opened and closed once |
| Clients.ChangeIpIsRefused | core/src/at_cmdProc.c:404-433 | changeIp never changes the registry |
| Clients.RunKeeps | core/src/at_network.c:57-139 | over any sequence of add, del, changeIp and suspend messages, used slots hold a valid address, its socket address and an open socket of their own, unused slots hold none, and every socket handed out is open or was closed once, at every moment exactly when no suspend message comes from a client whose old descriptor is open again |
| Clients.SuspendTakesOut | core/src/at_network.c:93-101 | a suspend message clears the slots 1 to 9, used or not, and closes the socket named there if it is open; slot 0 is never cleared |
| Clients.SuspendKeeps | core/src/at_network.c:93-101 | closing and clearing a phone's slot on its suspend message, flag unread, keeps that exactly when the client is in use or its old descriptor is not open again |
| Clients.SuspendClosesAnother | core/src/at_network.c:93-101 | after add, del and add with the same descriptor, suspending the first client closes the second one's socket |
| Clients.ClientTable.SetClientIpAddr | core/src/at_network.c:41-49 | an address that fits with its NUL replaces the slot's address, out of range nothing changes |
| Clients.ClientTable.CloseSocket | core/src/at_network.c:93-101 | the slot's socket is closed; the slot must be in range |
| Clients.ClientTable.NetworkConfig | core/src/at_network.c:102-139 | the tables change as the registry value does, with the same answer |
| Clients.ClientTable.AddClient | core/src/at_cmdProc.c:351-379 | the array code computes add on the registry value |
| Clients.ClientTable.DelClient | core/src/at_cmdProc.c:380-403 | the array code computes del, and reaches closeSocket only with a slot in range |
| Clients.ClientTable.ChangeClientIpAddr | core/src/at_cmdProc.c:404-433 | the array code computes changeIp |
| Modes.StopKeeps | core/src/at_cmdProc.c:665-740 | stop leaves IDs and live threads matched, and the thread that calls it live, exactly unless it kills that thread |
| Modes.StopAllIdles | core/src/at_cmdProc.c:678-702 | stop all leaves no ID set and no thread live, whatever went before, exactly when no script calls it |
| Modes.StopAllFromScript | core/src/at_cmdProc.c:692-698 | called by a script, stop all stops sender, receiver and the slots before that script's, ends the script with its ID set and its slot taken, and leaves the slots behind it as they were |
| Modes.LoadingIsolates | core/src/at_cmdProc.c:1024-1036 | a script that is loaded finds the rows of its file in its buffer, and the rows of every other registered slot stay |
| Modes.ExitIsolates | core/src/at_cmdProc.c:1099-1103 | a script that ends frees no other slot's rows |
| Modes.ExitKeeps | core/src/at_cmdProc.c:1099-1106 | a script's natural end frees its own buffer for the first time and makes its slot usable again |
| Modes.StartRuns | core/src/at_cmdProc.c:587-657 | start test with a queue starts exactly the sender and start rec exactly the receiver; with the ID set, no thread to be had, another word or another number of words nothing changes |
| Modes.StartAllIsBoth | core/src/at_cmdProc.c:619-643 | start all is start test and then start rec, and neither without a queue or when the sender does not come up |
| Modes.StopStops | core/src/at_cmdProc.c:703-733 | from the main thread stop test ends exactly the sender, stop rec the receiver, and stop n script the script in slot n, and any other words change nothing |
| Modes.RunScriptRuns | core/src/at_cmdProc.c:804-837 | runScript starts a thread in a slot exactly with two arguments, test mode, a free slot from 0 to 9, a thread to be had and a file that opens, and changes no other slot |
| Modes.ReceiverEndsAlone | core/src/at_cmdProc.c:592-599 | a receiver that ends by itself takes no other thread and no ID along |
| Modes.QuitKeepsIds | core/src/at_cmdProc.c:741-761 | quit leaves IDs and live threads matched exactly when neither sender nor receiver is registered |
| Modes.QuitEnds | core/src/at_cmdProc.c:741-761 | quit ends sender and receiver and touches no script, no buffer and no ID |
| Modes.QuitLeavesIds | core/src/at_cmdProc.c:573-664 | after start all and quit both threads are gone, both IDs are set, and no start brings anything back |
| Modes.OldIdHitsAnother | core/src/at_cmdProc.c:703-710 | the ID quit leaves behind may become a script's, and stop test then ends that script's thread and leaves its slot taken |
| Modes.RunKeeps | core/src/at_cmdProc.c:573-803 | over any run of start, stop, runScript, quit and ends of threads, no role has two live threads and no buffer is shared by registered slots or freed twice; and an ID is set exactly when its thread is live, at every moment, exactly when no stop kills the thread that calls it, quit only comes without sender and receiver, and no receiver ends by itself |
| Modes.ThreadTable.StartCmd | core/src/at_cmdProc.c:573-664 | the code over the ID variables computes start |
| Modes.ThreadTable.StopCmd | core/src/at_cmdProc.c:665-740 | the code, with its loop over the script slots, computes stop, also where it kills the thread that runs it |
| Modes.ThreadTable.QuitCmd | core/src/at_cmdProc.c:741-761 | the code computes quit |
| Modes.ThreadTable.RunScriptCmd | core/src/at_cmdProc.c:804-837 | the code computes runScript, the slot's buffer included |
| Modes.ThreadTable.ScriptExit | core/src/at_cmdProc.c:1102-1106 | the code frees the slot's buffer and gives the slot back |
| System.StepKeepsOnItsWay | core/src/at_cmdProc.c:1041-1098 | a script's step keeps issued lines plus lines ahead equal to its trace and its counter equal to completed iterations |
| System.ScriptsRunAsIfAlone | core/src/at_cmdProc.c:1008-1106 | for every interleaving each registered slot reads the rows its script was started with, and each script has issued a prefix of their trace with its counter at the completed iterations, and at the end of the rows it has issued all of it and counted all iterations, up to 2147483647 |
| System.StepGoesOn | core/src/at_cmdProc.c:1041-1106 | a move of a live script hands out its next line and takes it exactly one step nearer its end, whatever the line does; at the end the move frees buffer and slot |
| System.ScriptRunsOut | core/src/at_cmdProc.c:1008-1106 | left to itself, a script k steps from its end has after k moves handed out its whole trace and counted every iteration, and the next move gives its slot back, unless a line of its own ends it |
| System.TypedScriptRunsOut | core/src/at_cmdProc.c:804-837 | so does the script of a file named in a typed runScript, from the typed line to the trace of exactly that file's rows |
| System.QueueIsSafe | core/src/at_cmdProc.c:466-567 | for every interleaving each message ever queued has a client from 0 to 9 and a full command name and was sent with the sender's ID set, and with the sender's thread live if every quit was clean |
| System.SuspendNeedsReceiver | core/src/at_network.c:93-101 | a suspend message is only heard while the receiver runs, and only from phones 1 to 9 |
| System.TablesAreSound | core/src/at_cmdProc.c:351-433 | for every interleaving threads and buffers are tidy; the registry is consistent after every move exactly when no suspend message is a late one; IDs and threads match at every moment exactly when quit is only run without sender and receiver, no stop kills the thread that runs it, and no receiver ends by itself |
| System.ScriptStopsItself | core/src/at_cmdProc.c:692-698 | a script that runs stop all is gone for good with its ID set, sender, receiver and the scripts before it are stopped, and the scripts behind it go on |
| System.QuitDeceives | core/src/at_cmdProc.c:741-761 | after start all, q and call 0 hi, both IDs are set, both threads are gone and the message is queued |
| System.HeardIs | core/src/at_cmdProc.c:229-240 | of what is typed and done, everything is heard up to the first input that starts with quit, but for empty input |
| System.Session | core/src/at_cmdProc.c:229-240 | the command loop of `main`, with script steps and other threads' moves between the lines, is a run of the system up to the first input that starts with quit |
| System.BothWays | core/src/at_cmdProc.c:332-348 | after any session, reading a file at the console as autoConfig does and interpreting it as a script lead to the same world exactly when no row of it starts with loop |
| Completion.MatchingIsFilter | core/src/readline.c:21-27 | the completions are the entries that start with the text, each as often as in the list |
| Completion.MatchingInOrder | core/src/readline.c:21-27 | they come in the order of the list |
| Completion.Generator.Generate | core/src/readline.c:10-28 | one call gives the next completion or NULL, and state 0 starts over from any position |
| Completion.Generator.Matches | core/src/readline.c:29-44 | state 0 and then other states until NULL give all completions in order |

## Left out

- Unbalanced scripts (a loop row without a space, with an argument over nine characters, without a start row, or without an end row): the interpreter then reads outside its rows or through NULL; only the missing start row is described (`StaleStart`).
- `%` in a command line: several lines are used as formats.
- Script number 10, which passes the range checks and lies outside the ID array; a `randomKey` client over 239 characters, which does not fit its format buffer; a line that makes the tool follow a pointer that no line has set yet.
- A second `quit` or `stop` on the ID of a thread that was joined already: the model takes the call for one without effect, unless the ID has come back.
- Failing `malloc`, and more than 500 rows in a script, for which the loader has no check.
- Commands.RandValueRange: exact arithmetic; the single-precision product of the source can round a draw near RAND_MAX up to min + max.
- Includes: config files that include each other in a cycle, on which the source does not end; the end of randomKey's rejection loop, which the model takes from its stream of draws.
- Script file names (`gScriptName`), which `start` clears while scripts run; they only show in reports.
- The sender and receiver threads themselves, the counters of successful calls, sockets and signals; the report `quit` writes; `showHelp`, `showClient`, `look`, `delay` and `randomTime`, which print or sleep.
- The text that `readline.c` cuts off before the last space; the command list is taken with the NULL at its end that the source forgot.
