/**
 The script loader cpScriptContentToArray (core/src/at_cmdProc.c:181-214) and the line parser
 it shares with autoConfig (core/src/at_cmdProc.c:332-346).  fgets hands out chunks of at
 most 255 characters; a chunk is a row when it is no comment, not blank, and holds a ';'.
 */
module Loader {
  import opened CStrings

  const MAX_CMD_LEN: nat := 256
  const MAX_SC_LINE: nat := 500

  // ---- fgets ----

  /** How many characters fgets(temp, MAX_CMD_LEN, fp) takes when `rest` is left in the file. */
  function ChunkLength(rest: string): (n: nat)
    requires rest != ""
    ensures 1 <= n <= |rest| && n < MAX_CMD_LEN
    ensures forall i :: 0 <= i < n - 1 ==> rest[i] != '\n'
    ensures n == |rest| || n == MAX_CMD_LEN - 1 || rest[n - 1] == '\n'
  {
    var line := FirstIndex(rest, '\n') + 1;
    if line < MAX_CMD_LEN && line <= |rest| then line
    else if |rest| < MAX_CMD_LEN then |rest|
    else MAX_CMD_LEN - 1
  }

  /** fgets takes `chunk` when `rest` follows it. */
  predicate IsChunk(chunk: string, rest: string)
  {
    && 1 <= |chunk| < MAX_CMD_LEN
    && (forall i :: 0 <= i < |chunk| - 1 ==> chunk[i] != '\n')
    && (rest == "" || |chunk| == MAX_CMD_LEN - 1 || chunk[|chunk| - 1] == '\n')
  }

  /** One fgets call: `chunk` is what it returns and `rest` what it leaves of `left`. */
  predicate Taken(chunk: Option<string>, rest: string, left: string)
  {
    match chunk
    case None => left == rest == ""
    case Some(c) => IsChunk(c, rest) && c + rest == left
  }

  lemma TakenFacts(chunk: string, rest: string, left: string)
    requires Taken(Some(chunk), rest, left)
    ensures IsChunk(chunk, rest) && 1 <= |chunk| < MAX_CMD_LEN && chunk + rest == left && |rest| < |left|
  {
  }

  lemma NothingTaken(rest: string, left: string)
    requires Taken(None, rest, left)
    ensures rest == left == ""
  {
  }

  /** A file on disk, read from the front with fgets. */
  class Reader {
    const text: string
    var pos: nat

    ghost predicate Valid()
      reads this
    {
      pos <= |text|
    }

    /** What is left to read. */
    ghost function Left(): string
      requires Valid()
      reads this
    {
      text[pos..]
    }

    constructor (text: string)
      ensures Valid() && this.text == text && pos == 0 && Left() == text
    {
      this.text := text;
      pos := 0;
    }

    /** fgets into a buffer of 256 characters; None stands for NULL. */
    method Fgets() returns (chunk: Option<string>)
      requires Valid()
      modifies this
      ensures Valid()
      ensures Taken(chunk, Left(), old(Left()))
    {
      if pos == |text| {
        return None;
      }
      var n := 0;
      while pos + n < |text| && n < MAX_CMD_LEN - 1 && (n == 0 || text[pos + n - 1] != '\n')
        invariant n < MAX_CMD_LEN && pos + n <= |text|
        invariant forall i :: 0 <= i < n - 1 ==> text[pos..][i] != '\n'
      {
        n := n + 1;
      }
      chunk := Some(text[pos..pos + n]);
      assert chunk.value == text[pos..][..n];
      pos := pos + n;
      assert chunk.value + Left() == old(Left());
    }
  }

  lemma LengthOfChunk(rest: string, n: nat)
    requires 1 <= n <= |rest| && n < MAX_CMD_LEN
    requires forall i :: 0 <= i < n - 1 ==> rest[i] != '\n'
    requires n == |rest| || n == MAX_CMD_LEN - 1 || rest[n - 1] == '\n'
    ensures ChunkLength(rest) == n
  {
  }

  // ---- One chunk ----

  /** A row of the script array, or nothing: comments, blank lines and chunks without ';' go. */
  function RowOf(chunk: string): (r: Option<string>)
    requires chunk != ""
  {
    var line := Until(chunk, NUL);
    if chunk[0] == '#' || chunk[0] == '\n' then None
    else if ';' in line then Some(Until(line, ';'))
    else None
  }

  /** What the two copies of the line parser do with a chunk, step by step. */
  lemma ParseChunk(chunk: string)
    requires 1 <= |chunk| < MAX_CMD_LEN
    ensures var line := Until(chunk, NUL);
      RowOf(chunk) ==
        if chunk[0] == '#' || chunk[0] == '\n' || FirstIndex(line, ';') == |line| then None
        else Some(chunk[..FirstIndex(line, ';')])
    ensures FirstIndex(Until(chunk, NUL), ';') <= |Until(chunk, NUL)| <= |chunk|
    ensures forall p :: 0 <= p <= |chunk| ==> Truncate(chunk[..p], MAX_CMD_LEN) == chunk[..p]
  {
    var line := Until(chunk, NUL);
    var p := FirstIndex(line, ';');
    assert ';' in line <==> p < |line|;
    assert line[..p] == chunk[..p];
  }

  function Rows(r: Option<string>): seq<string>
  {
    if r.Some? then [r.value] else []
  }

  /** The rows of a file. */
  function Load(text: string): seq<string>
  {
    if text == "" then []
    else
      var n := ChunkLength(text);
      Rows(RowOf(text[..n])) + Load(text[n..])
  }

  /** What a row can be: shorter than a chunk, not a comment, free of ';', newline and NUL. */
  predicate IsRow(r: string)
  {
    |r| < MAX_CMD_LEN - 1 && ';' !in r && '\n' !in r && NUL !in r && (r == "" || r[0] != '#')
  }

  lemma {:induction false} LoadIsRows(text: string)
    ensures forall r :: r in Load(text) ==> IsRow(r)
  {
    if text != "" {
      var n := ChunkLength(text);
      LoadIsRows(text[n..]);
      RowOfIsRow(text[..n], text);
    }
  }

  lemma RowOfIsRow(chunk: string, text: string)
    requires text != "" && chunk == text[..ChunkLength(text)]
    ensures RowOf(chunk).Some? ==> IsRow(RowOf(chunk).value)
  {
    if RowOf(chunk).Some? {
      var line := Until(chunk, NUL);
      var r := RowOf(chunk).value;
      assert |r| < |line| <= |chunk|;
      assert forall i :: 0 <= i < |r| ==> r[i] == line[i] == chunk[i] == text[i];
    }
  }

  // ---- Where one text may be cut in two ----

  lemma LoadChunk(chunk: string, rest: string)
    requires IsChunk(chunk, rest)
    ensures Load(chunk + rest) == Rows(RowOf(chunk)) + Load(rest)
  {
    hide RowOf, Rows;
    var t := chunk + rest;
    LengthOfChunk(t, |chunk|);
    assert t[..|chunk|] == chunk && t[|chunk|..] == rest;
  }

  lemma FirstChunk(text: string)
    requires text != ""
    ensures var n := ChunkLength(text); IsChunk(text[..n], text[n..]) && text[..n] + text[n..] == text
  {
  }

  lemma LoadAppendChunk(chunk: string, rest: string, t2: string)
    requires IsChunk(chunk, rest) && (rest == "" ==> chunk[|chunk| - 1] == '\n')
    requires Load(rest + t2) == Load(rest) + Load(t2)
    ensures Load((chunk + rest) + t2) == Load(chunk + rest) + Load(t2)
  {
    hide Load, RowOf, Rows;
    LoadChunk(chunk, rest);
    LoadChunk(chunk, rest + t2);
    Regroup(chunk, rest, t2);
    Regroup(Rows(RowOf(chunk)), Load(rest), Load(t2));
  }

  /** Lines behind a newline load the same whatever stands before it. */
  lemma {:induction false} LoadAppend(t1: string, t2: string)
    requires t1 == "" || t1[|t1| - 1] == '\n'
    ensures Load(t1 + t2) == Load(t1) + Load(t2)
    decreases |t1|
  {
    if t1 == "" {
      assert t1 + t2 == t2;
    } else {
      hide *;
      var n := ChunkLength(t1);
      var chunk, rest := t1[..n], t1[n..];
      FirstChunk(t1);
      LoadAppend(rest, t2);
      LoadAppendChunk(chunk, rest, t2);
      assert chunk + rest == t1;
    }
  }

  /** A comment, a blank line, or a line without a ';' adds no row. */
  lemma LineAddsNothing(line: string, rest: string)
    requires IsChunk(line, rest) && (line[0] == '#' || line[0] == '\n' || ';' !in line)
    ensures Load(line + rest) == Load(rest)
  {
    LoadChunk(line, rest);
    assert [] + Load(rest) == Load(rest);
  }

  // ---- Printing a script ----

  function PrintLine(cmd: string, note: string): string
  {
    cmd + ";" + note + "\n"
  }

  /** One command a line, each with a comment behind its ';'. */
  function Print(cmds: seq<string>, notes: seq<string>): string
    requires |cmds| == |notes|
  {
    if cmds == [] then "" else PrintLine(cmds[0], notes[0]) + Print(cmds[1..], notes[1..])
  }

  /** The part of a printed line that fgets leaves for the next chunk. */
  function Spill(cmd: string, note: string): string
  {
    var line := PrintLine(cmd, note);
    if |line| < MAX_CMD_LEN then "" else line[MAX_CMD_LEN - 1..]
  }

  const CHUNK: nat := MAX_CMD_LEN - 1

  /** The k-th piece of 255 characters; the last one may be shorter. */
  function Piece(s: string, k: nat): (piece: string)
    requires CHUNK * k < |s|
    ensures piece != ""
  {
    if CHUNK * (k + 1) <= |s| then s[CHUNK * k..CHUNK * (k + 1)] else s[CHUNK * k..]
  }

  /** A piece that cannot pass for a row: it starts a comment, or has no ';' in front of a NUL. */
  predicate Harmless(piece: string)
    requires piece != ""
  {
    piece[0] == '#' || ';' !in Until(piece, NUL)
  }

  /** No piece of a comment that runs past its line's first chunk can pass for a row. */
  ghost predicate NoteOk(cmd: string, note: string)
  {
    AllHarmless(Spill(cmd, note))
  }

  ghost predicate AllHarmless(s: string)
  {
    forall k: nat :: CHUNK * k < |s| ==> Harmless(Piece(s, k))
  }

  /** A printed line is its command followed by whatever its spill loads as. */
  lemma LoadLine(cmd: string, note: string, rest: string)
    requires IsRow(cmd) && '\n' !in note
    ensures Load(PrintLine(cmd, note) + rest) == [cmd] + Load(Spill(cmd, note)) + Load(rest)
  {
    LoadAppend(PrintLine(cmd, note), rest);
    LoadOneLine(cmd, note);
  }

  lemma LoadOneLine(cmd: string, note: string)
    requires IsRow(cmd) && '\n' !in note
    ensures Load(PrintLine(cmd, note)) == [cmd] + Load(Spill(cmd, note))
  {
    var line, spill := PrintLine(cmd, note), Spill(cmd, note);
    var chunk := line[..|line| - |spill|];
    assert chunk + spill == line;
    assert chunk[|cmd|] == ';' && chunk[..|cmd|] == cmd;
    RowOfLine(chunk, cmd);
    assert IsChunk(chunk, spill);
    LoadChunk(chunk, spill);
  }

  lemma RowOfLine(chunk: string, cmd: string)
    requires IsRow(cmd) && cmd + ";" <= chunk
    ensures RowOf(chunk) == Some(cmd)
  {
    assert chunk[|cmd|] == ';' && chunk[..|cmd|] == cmd;
    var line := Until(chunk, NUL);
    assert forall i :: 0 <= i < |cmd| ==> chunk[i] == cmd[i];
    assert |cmd| < |line|;
    FirstIndexIs(line, ';', |cmd|);
    assert line[..|cmd|] == cmd;
  }

  /** A newline in s is its last character. */
  predicate OneLine(s: string)
  {
    forall i :: 0 <= i < |s| - 1 ==> s[i] != '\n'
  }

  lemma SpillIsOneLine(cmd: string, note: string)
    requires IsRow(cmd) && '\n' !in note
    ensures OneLine(Spill(cmd, note))
    ensures Spill(cmd, note) != "" ==> Spill(cmd, note)[|Spill(cmd, note)| - 1] == '\n'
  {
    var line, spill := PrintLine(cmd, note), Spill(cmd, note);
    forall i | 0 <= i < |spill| - 1 ensures spill[i] != '\n' {
      var k := MAX_CMD_LEN - 1 + i;
      assert spill[i] == line[k] && line[k] == note[k - |cmd| - 1];
    }
  }

  /** The pieces behind the first one. */
  lemma PiecesBehind(s: string)
    requires |s| > CHUNK
    ensures Piece(s, 0) == s[..CHUNK]
    ensures forall k: nat :: CHUNK * k < |s[CHUNK..]| ==> Piece(s[CHUNK..], k) == Piece(s, k + 1)
  {
    forall k: nat | CHUNK * k < |s[CHUNK..]| ensures Piece(s[CHUNK..], k) == Piece(s, k + 1) {
      if CHUNK * (k + 1) <= |s[CHUNK..]| {
        assert s[CHUNK..][CHUNK * k..CHUNK * (k + 1)] == s[CHUNK * (k + 1)..CHUNK * (k + 2)];
      }
    }
  }

  lemma HarmlessIsNoRow(piece: string)
    requires piece != "" && OneLine(piece)
    ensures RowOf(piece) == None <==> Harmless(piece)
  {
    if piece[0] == '\n' {
      assert piece == "\n";
      assert Until(piece, NUL) == "\n";
    }
  }

  lemma FirstPieceHarmless(s: string)
    requires |s| > CHUNK
    ensures AllHarmless(s) <==> Harmless(s[..CHUNK]) && AllHarmless(s[CHUNK..])
  {
    hide Harmless, Piece;
    PiecesBehind(s);
    var rest := s[CHUNK..];
    if Harmless(s[..CHUNK]) && AllHarmless(rest) {
      forall k: nat | CHUNK * k < |s| ensures Harmless(Piece(s, k)) {
        if k > 0 {
          assert Harmless(Piece(rest, k - 1));
        }
      }
    }
    if AllHarmless(s) {
      assert Harmless(Piece(s, 0));
      forall k: nat | CHUNK * k < |rest| ensures Harmless(Piece(rest, k)) {
        assert Harmless(Piece(s, k + 1));
      }
    }
  }

  lemma OnePieceHarmless(s: string)
    requires 0 < |s| <= CHUNK
    ensures AllHarmless(s) <==> Harmless(s)
  {
    hide Harmless;
    assert Piece(s, 0) == s;
    assert forall k: nat :: CHUNK * k < |s| ==> k == 0;
  }

  /** One line of text loads as nothing exactly when none of its pieces can pass for a row. */
  lemma {:induction false} LoadsNothing(s: string)
    requires OneLine(s) && (s == "" || s[|s| - 1] == '\n')
    ensures Load(s) == [] <==> AllHarmless(s)
    decreases |s|
  {
    hide Load, RowOf, Harmless, AllHarmless;
    if s == "" {
      EmptyLoad();
    } else if |s| <= CHUNK {
      LoadChunk(s, "");
      assert s + "" == s;
      EmptyLoad();
      HarmlessIsNoRow(s);
      OnePieceHarmless(s);
    } else {
      var chunk, rest := s[..CHUNK], s[CHUNK..];
      assert chunk + rest == s;
      LoadChunk(chunk, rest);
      HarmlessIsNoRow(chunk);
      FirstPieceHarmless(s);
      LoadsNothing(rest);
    }
  }

  lemma EmptyLoad()
    ensures Load("") == [] && AllHarmless("")
  {
  }

  lemma SpillLoadsNothing(cmd: string, note: string)
    requires IsRow(cmd) && '\n' !in note
    ensures Load(Spill(cmd, note)) == [] <==> NoteOk(cmd, note)
  {
    SpillIsOneLine(cmd, note);
    LoadsNothing(Spill(cmd, note));
  }

  /**
   Loading a printed list of commands gives the list back exactly when no comment has a piece
   behind its line's first chunk that can pass for a row; otherwise there are rows too many.
   */
  lemma {:induction false} LoadPrint(cmds: seq<string>, notes: seq<string>)
    requires |cmds| == |notes|
    requires forall i :: 0 <= i < |cmds| ==> IsRow(cmds[i]) && '\n' !in notes[i]
    ensures Load(Print(cmds, notes)) == cmds <==> forall i :: 0 <= i < |cmds| ==> NoteOk(cmds[i], notes[i])
    ensures |Load(Print(cmds, notes))| >= |cmds|
  {
    if cmds == [] {
      EmptyLoad();
    } else {
      hide NoteOk, IsRow, Spill, PrintLine, Load;
      LoadLine(cmds[0], notes[0], Print(cmds[1..], notes[1..]));
      LoadPrint(cmds[1..], notes[1..]);
      SpillLoadsNothing(cmds[0], notes[0]);
      OneLineMore(cmds, Load(Spill(cmds[0], notes[0])), Load(Print(cmds[1..], notes[1..])));
      FirstAndRest(cmds, notes);
    }
  }

  lemma OneLineMore(cmds: seq<string>, extra: seq<string>, rest: seq<string>)
    requires cmds != [] && |rest| >= |cmds| - 1
    ensures [cmds[0]] + extra + rest == cmds <==> extra == [] && rest == cmds[1..]
  {
    if extra == [] {
      assert [cmds[0]] + extra + rest == [cmds[0]] + rest;
      assert ([cmds[0]] + rest)[1..] == rest;
      assert cmds == [cmds[0]] + cmds[1..];
    }
  }

  lemma FirstAndRest(cmds: seq<string>, notes: seq<string>)
    requires |cmds| == |notes| > 0
    ensures (forall i :: 0 <= i < |cmds| ==> NoteOk(cmds[i], notes[i])) <==>
      NoteOk(cmds[0], notes[0]) && forall i :: 0 <= i < |cmds[1..]| ==> NoteOk(cmds[1..][i], notes[1..][i])
  {
    hide NoteOk;
    if NoteOk(cmds[0], notes[0]) && (forall i :: 0 <= i < |cmds[1..]| ==> NoteOk(cmds[1..][i], notes[1..][i])) {
      forall i | 0 <= i < |cmds| ensures NoteOk(cmds[i], notes[i]) {
        if i > 0 {
          assert NoteOk(cmds[1..][i - 1], notes[1..][i - 1]);
        }
      }
    }
  }

  /** A comment that stays in its line's first chunk, or has no ';' in it, is no trouble. */
  lemma PlainNotes(cmd: string, note: string)
    requires IsRow(cmd) && (|cmd| + 1 + |note| < MAX_CMD_LEN || ';' !in note)
    ensures NoteOk(cmd, note)
  {
    var line, spill := PrintLine(cmd, note), Spill(cmd, note);
    forall i | 0 <= i < |spill| ensures spill[i] != ';' {
      var k := MAX_CMD_LEN - 1 + i;
      assert spill[i] == line[k] == (note + "\n")[k - |cmd| - 1];
    }
    hide Spill;
    forall k: nat | CHUNK * k < |spill| ensures Harmless(Piece(spill, k)) {
      var piece := Piece(spill, k);
      assert forall i :: 0 <= i < |piece| ==> piece[i] == spill[CHUNK * k + i];
    }
  }

  /** And in lines: the array holds the rows of up to 500 of them. */
  lemma LongestScript(cmds: seq<string>, notes: seq<string>)
    requires |cmds| == |notes|
    requires forall i :: 0 <= i < |cmds| ==> IsRow(cmds[i]) && '\n' !in notes[i] && ';' !in notes[i]
    ensures |Load(Print(cmds, notes))| <= MAX_SC_LINE <==> |cmds| <= 500
  {
    forall i | 0 <= i < |cmds| ensures NoteOk(cmds[i], notes[i]) {
      PlainNotes(cmds[i], notes[i]);
    }
    hide NoteOk, IsRow, Load, Print;
    LoadPrint(cmds, notes);
  }

  /** In numbers: a command of up to 254 characters is loaded from its line, a longer one is not. */
  lemma LongestRow(cmd: string)
    requires cmd != "" && cmd[0] != '#' && ';' !in cmd && '\n' !in cmd && NUL !in cmd
    ensures |cmd| <= 254 ==> Load(cmd + ";\n") == [cmd]
    ensures |cmd| > 254 ==> cmd !in Load(cmd + ";\n")
  {
    hide Load, NoteOk, Spill;
    if |cmd| <= 254 {
      assert IsRow(cmd);
      PlainNotes(cmd, "");
      SpillLoadsNothing(cmd, "");
      LoadOneLine(cmd, "");
      assert PrintLine(cmd, "") == cmd + ";\n";
    } else {
      LoadIsRows(cmd + ";\n");
    }
  }

  /** Printing what a text loads as, and loading that, changes nothing, under the same condition. */
  lemma LoadTwice(text: string, notes: seq<string>)
    requires |notes| == |Load(text)| && forall i :: 0 <= i < |notes| ==> '\n' !in notes[i]
    ensures Load(Print(Load(text), notes)) == Load(text) <==>
      forall i :: 0 <= i < |notes| ==> NoteOk(Load(text)[i], notes[i])
  {
    LoadIsRows(text);
    LoadPrint(Load(text), notes);
  }

  /** For example: a comment that fills the chunk and goes on with a command and a ';' adds that command. */
  lemma LongNoteAddsRow(cmd: string, note: string, extra: string)
    requires IsRow(cmd) && |cmd| + 1 + |note| == MAX_CMD_LEN - 1 && '\n' !in note
    requires IsRow(extra) && |extra| + 1 < MAX_CMD_LEN - 1
    ensures Load(PrintLine(cmd, note + extra + ";")) == [cmd, extra]
  {
    LoadOneLine(cmd, note + extra + ";");
    LoadOneLine(extra, "");
    SpillIs(cmd, note, extra);
  }

  lemma SpillIs(cmd: string, note: string, extra: string)
    requires |cmd| + 1 + |note| == MAX_CMD_LEN - 1
    ensures Spill(cmd, note + extra + ";") == PrintLine(extra, "")
  {
    assert PrintLine(cmd, note + extra + ";") == (cmd + ";" + note) + PrintLine(extra, "");
  }

  // ---- The loader ----

  /** `got` has been loaded and `left` is still in the file. */
  ghost predicate Loading(rows: seq<string>, got: seq<string>, left: string)
  {
    rows == got + Load(left)
  }

  /** What has been got when the chunk is a row, or is not. */
  function GotWith(got: seq<string>, chunk: string): seq<string>
    requires chunk != ""
  {
    got + Rows(RowOf(chunk))
  }

  lemma LoadMore(rows: seq<string>, got: seq<string>, chunk: string, left: string)
    requires IsChunk(chunk, left) && Loading(rows, got, chunk + left)
    ensures Loading(rows, GotWith(got, chunk), left) && |GotWith(got, chunk)| <= |rows|
  {
    LoadChunk(chunk, left);
    Regroup(got, Rows(RowOf(chunk)), Load(left));
  }

  lemma AllLoaded(rows: seq<string>, got: seq<string>)
    requires Loading(rows, got, "")
    ensures rows == got
  {
  }

  /** The array holds what has been got, and behind that what it held before. */
  ghost predicate Filled(b: seq<string>, got: seq<string>, was: seq<string>)
  {
    |got| <= |was| && b == got + was[|got|..]
  }

  lemma FilledFirst(was: seq<string>)
    ensures Filled(was, [], was)
  {
  }

  lemma FilledMore(b: seq<string>, got: seq<string>, was: seq<string>, chunk: string)
    requires Filled(b, got, was) && chunk != "" && |GotWith(got, chunk)| <= |was|
    ensures match RowOf(chunk)
      case None => GotWith(got, chunk) == got
      case Some(row) => |got| < |b| && Filled(b[|got| := row], GotWith(got, chunk), was)
    ensures |GotWith(got, chunk)| == |got| + if RowOf(chunk).Some? then 1 else 0
  {
    hide RowOf;
  }

  lemma ReadBack(b: seq<string>, rows: seq<string>, was: seq<string>)
    requires Filled(b, rows, was)
    ensures |b| == |was| && forall i :: 0 <= i < |b| ==> b[i] == if i < |rows| then rows[i] else was[i]
  {
  }

  /** Lines 199-210: a chunk that is a row goes into the array. */
  method KeepRow(scriptCont: array<string>, tmpIndex: nat, temp: string, ghost got: seq<string>,
                 ghost was: seq<string>) returns (next: nat)
    requires 1 <= |temp| < MAX_CMD_LEN && |GotWith(got, temp)| <= |was|
    requires Filled(scriptCont[..], got, was) && tmpIndex == |got|
    modifies scriptCont
    ensures Filled(scriptCont[..], GotWith(got, temp), was) && next == |GotWith(got, temp)|
  {
    ParseChunk(temp);
    FilledMore(scriptCont[..], got, was, temp);
    hide *;
    next := tmpIndex;
    if temp[0] != '#' && temp[0] != '\n' {
      var p := FirstIndex(Until(temp, NUL), ';');
      if p < |Until(temp, NUL)| {
        scriptCont[tmpIndex] := Truncate(temp[..p], MAX_CMD_LEN);
        next := tmpIndex + 1;
      }
    }
  }

  /** Reads the rest of the file into the script array; the result is the last row's index. */
  method CpScriptContentToArray(cmdFd: Reader, scriptCont: array<string>) returns (last: int)
    requires cmdFd.Valid() && |Load(cmdFd.Left())| <= scriptCont.Length
    modifies cmdFd, scriptCont
    ensures cmdFd.Valid() && cmdFd.Left() == ""
    ensures var rows := old(Load(cmdFd.Left()));
      && last == |rows| - 1
      && (forall i :: 0 <= i < |rows| ==> scriptCont[i] == rows[i])
      && forall i :: |rows| <= i < scriptCont.Length ==> scriptCont[i] == old(scriptCont[i])
  {
    ghost var rows, got, was := Load(cmdFd.Left()), [], scriptCont[..];
    var tmpIndex: int := 0;
    assert Loading(rows, got, cmdFd.Left());
    hide *;
    FilledFirst(was);
    ghost var left := cmdFd.Left();
    var temp := cmdFd.Fgets();
    while temp.Some?
      invariant cmdFd.Valid() && Taken(temp, cmdFd.Left(), left) && Loading(rows, got, left)
      invariant tmpIndex == |got| && |rows| <= |was| && Filled(scriptCont[..], got, was)
      decreases |left|
    {
      TakenFacts(temp.value, cmdFd.Left(), left);
      LoadMore(rows, got, temp.value, cmdFd.Left());
      tmpIndex := KeepRow(scriptCont, tmpIndex, temp.value, got, was);
      got := GotWith(got, temp.value);
      left := cmdFd.Left();
      temp := cmdFd.Fgets();
    }
    NothingTaken(cmdFd.Left(), left);
    last := tmpIndex - 1;
    AllLoaded(rows, got);
    ReadBack(scriptCont[..], rows, was);
    assert forall i :: 0 <= i < scriptCont.Length ==> scriptCont[i] == scriptCont[..][i];
  }
}
