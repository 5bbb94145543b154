/**
 * The log writer: SignalR's own log entries are split into a level and a
 * message, the level is padded to a column of nine, trailing line breaks
 * are dropped from the message, and one line is appended to the log file.
 * The file is a sequence of lines here; the clock is a timestamp passed in,
 * and whether the file could be opened is a flag.
 */
module Logging {
  import opened Types

  /** The level an entry gets when it names none. */
  const DefaultLevel: string := "info"

  /** The width formatLevel pads to. */
  const LevelWidth: nat := 9

  datatype Parsed = Parsed(level: string, message: string)

  // ---------------------------------------------------------------------
  // The string library calls the parser relies on

  /** std::string::find of one character from a position: the first match at or after it. */
  function Find(s: string, c: char, from: nat): (r: Option<nat>)
    ensures r.Some? ==> from <= r.value < |s| && s[r.value] == c &&
                        forall k :: from <= k < r.value ==> s[k] != c
    ensures r.None? ==> forall k :: from <= k < |s| ==> s[k] != c
    decreases |s| - from
  {
    if from >= |s| then None
    else if s[from] == c then Some(from)
    else Find(s, c, from + 1)
  }

  /** std::string::find_last_not_of(" "): the last position that is not a space. */
  function LastNonSpace(s: string): (r: Option<nat>)
    ensures r.Some? ==> r.value < |s| && s[r.value] != ' ' &&
                        forall k :: r.value < k < |s| ==> s[k] == ' '
    ensures r.None? ==> forall k :: 0 <= k < |s| ==> s[k] == ' '
  {
    if s == [] then None
    else if s[|s| - 1] != ' ' then Some(|s| - 1)
    else LastNonSpace(s[..|s| - 1])
  }

  // ---------------------------------------------------------------------
  // parseSignalRMessage

  /**
   * The level between the brackets: trailing spaces cut off; an all-space
   * text kept as it is; nothing at all leaves the default.
   */
  function LevelOf(inner: string): string
  {
    match LastNonSpace(inner)
    case Some(last) => inner[..last + 1]
    case None => if inner != [] then inner else DefaultLevel
  }

  /** The first position at or after `i` that is not a space, or the end. */
  function SkipSpaces(s: string, i: nat): (j: nat)
    requires i <= |s|
    ensures i <= j <= |s| && (j == |s| || s[j] != ' ')
    ensures forall k :: i <= k < j ==> s[k] == ' '
    decreases |s| - i
  {
    if i < |s| && s[i] == ' ' then SkipSpaces(s, i + 1) else i
  }

  /**
   * An entry "...[level] message": the level between the first '[' and the
   * next ']', and the message after the spaces that follow; without such a
   * pair, or with nothing after the spaces, the message is the whole entry.
   */
  function Parse(entry: string): Parsed
  {
    if entry == [] then Parsed(DefaultLevel, entry)
    else
      match Find(entry, '[', 0)
      case None => Parsed(DefaultLevel, entry)
      case Some(levelStart) =>
        match Find(entry, ']', levelStart)
        case None => Parsed(DefaultLevel, entry)
        case Some(levelEnd) =>
          if levelEnd > levelStart then
            var msgStart := SkipSpaces(entry, levelEnd + 1);
            Parsed(LevelOf(entry[levelStart + 1..levelEnd]),
                   if msgStart < |entry| then entry[msgStart..] else entry)
          else Parsed(DefaultLevel, entry)
  }

  /** parseSignalRMessage. */
  method ParseSignalRMessage(entry: string) returns (level: string, message: string)
    ensures Parsed(level, message) == Parse(entry)
  {
    level := DefaultLevel;
    message := entry;
    if entry == [] {
      return;
    }
    var levelStart := Find(entry, '[', 0);
    if levelStart.None? {
      return;
    }
    var levelEnd := Find(entry, ']', levelStart.value);
    if levelEnd.Some? && levelEnd.value > levelStart.value {
      level, message := ReadBracketed(entry, levelStart.value, levelEnd.value);
    }
  }

  /**
   * The part of parseSignalRMessage after a bracket pair was found: the
   * trimmed level, and its own loop over the spaces before the message.
   */
  method ReadBracketed(entry: string, levelStart: nat, levelEnd: nat) returns (level: string, message: string)
    requires levelStart < levelEnd < |entry|
    ensures level == LevelOf(entry[levelStart + 1..levelEnd])
    ensures var msgStart := SkipSpaces(entry, levelEnd + 1);
            message == if msgStart < |entry| then entry[msgStart..] else entry
  {
    var inner := entry[levelStart + 1..levelEnd];
    var lastNonSpace := LastNonSpace(inner);
    level := DefaultLevel;
    if lastNonSpace.Some? {
      level := inner[..lastNonSpace.value + 1];
    } else if inner != [] {
      level := inner;
    }
    var msgStart := levelEnd + 1;
    while msgStart < |entry| && entry[msgStart] == ' '
      invariant levelEnd + 1 <= msgStart <= |entry|
      invariant SkipSpaces(entry, levelEnd + 1) == SkipSpaces(entry, msgStart)
      decreases |entry| - msgStart
    {
      msgStart := msgStart + 1;
    }
    message := entry;
    if msgStart < |entry| {
      message := entry[msgStart..];
    }
  }

  /** Neither bracket pair nor text: the default level and the entry itself. */
  lemma UnbracketedEntryKept(entry: string)
    requires forall k :: 0 <= k < |entry| ==> entry[k] != '['
    ensures Parse(entry) == Parsed(DefaultLevel, entry)
  {
    if entry != [] {
      assert Find(entry, '[', 0).None?;
    }
  }

  /** An opening bracket with no closing one after it leaves the entry alone too. */
  lemma UnclosedEntryKept(entry: string, i: nat)
    requires i < |entry| && entry[i] == '['
    requires forall k :: 0 <= k < i ==> entry[k] != '['
    requires forall k :: i <= k < |entry| ==> entry[k] != ']'
    ensures Parse(entry) == Parsed(DefaultLevel, entry)
  {
    assert Find(entry, '[', 0) == Some(i);
  }

  /**
   * The shape SignalR writes, read back: the first '[' at `open`, the next
   * ']' at `close`, a level between them that does not end with a space,
   * and a message at `start` after nothing but spaces. The level and the
   * message come back exactly.
   */
  lemma ParseBracketed(entry: string, open: nat, close: nat, start: nat)
    requires open + 1 < close < start < |entry|
    requires entry[open] == '[' && entry[close] == ']' && entry[close - 1] != ' ' && entry[start] != ' '
    requires forall k :: 0 <= k < open ==> entry[k] != '['
    requires forall k :: open < k < close ==> entry[k] != ']'
    requires forall k :: close < k < start ==> entry[k] == ' '
    ensures Parse(entry) == Parsed(entry[open + 1..close], entry[start..])
  {
    assert Find(entry, '[', 0) == Some(open);
    assert Find(entry, ']', open) == Some(close);
    var inner := entry[open + 1..close];
    assert LastNonSpace(inner) == Some(|inner| - 1);
    SkipSpacesOver(entry, close + 1, start);
  }

  /** Skipping from `i` stops at the first non-space `j` when all before it are spaces. */
  lemma {:induction false} SkipSpacesOver(s: string, i: nat, j: nat)
    requires i <= j < |s| && s[j] != ' '
    requires forall k :: i <= k < j ==> s[k] == ' '
    ensures SkipSpaces(s, i) == j
    decreases j - i
  {
    if i < j {
      SkipSpacesOver(s, i + 1, j);
    }
  }

  /**
   * The message a parse yields is the whole entry, or a tail of it that is
   * not empty and does not start with a space.
   */
  lemma ParsedMessage(entry: string)
    ensures var m := Parse(entry).message;
            m == entry || (m != [] && m[0] != ' ' && m == entry[|entry| - |m|..])
  {
    if entry != [] && Find(entry, '[', 0).Some? {
      var ls := Find(entry, '[', 0).value;
      if Find(entry, ']', ls).Some? {
        var le := Find(entry, ']', ls).value;
        var msgStart := SkipSpaces(entry, le + 1);
        if msgStart < |entry| {
          assert |entry[msgStart..]| == |entry| - msgStart;
        }
      }
    }
  }

  /**
   * The level a parse yields has no ']' in it, and ends with a space only
   * when it is nothing but spaces.
   */
  lemma ParsedLevel(entry: string)
    ensures var l := Parse(entry).level;
            (forall k :: 0 <= k < |l| ==> l[k] != ']') &&
            (l != [] && l[|l| - 1] == ' ' ==> forall k :: 0 <= k < |l| ==> l[k] == ' ')
  {
    if entry != [] && Find(entry, '[', 0).Some? {
      var ls := Find(entry, '[', 0).value;
      if Find(entry, ']', ls).Some? {
        var le := Find(entry, ']', ls).value;
        var inner := entry[ls + 1..le];
        assert forall k :: 0 <= k < |inner| ==> inner[k] != ']' by {
          assert forall k :: 0 <= k < |inner| ==> inner[k] == entry[ls + 1 + k];
        }
        LevelOfShape(inner);
      }
    }
  }

  /** The trimmed level keeps the characters it was cut from, and its only trailing spaces are an all-space level's. */
  lemma LevelOfShape(inner: string)
    requires forall k :: 0 <= k < |inner| ==> inner[k] != ']'
    ensures var l := LevelOf(inner);
            (forall k :: 0 <= k < |l| ==> l[k] != ']') &&
            (l != [] && l[|l| - 1] == ' ' ==> forall k :: 0 <= k < |l| ==> l[k] == ' ')
  {
  }

  // ---------------------------------------------------------------------
  // formatLevel

  /** `n` spaces. */
  function Spaces(n: nat): (r: string)
    ensures |r| == n && forall k :: 0 <= k < n ==> r[k] == ' '
  {
    if n == 0 then [] else Spaces(n - 1) + " "
  }

  /** The level padded with spaces to the column width; a longer level is kept whole. */
  function Padded(level: string): string
  {
    if |level| >= LevelWidth then level else level + Spaces(LevelWidth - |level|)
  }

  /** formatLevel, appending one space at a time. */
  method FormatLevel(level: string) returns (formatted: string)
    ensures formatted == Padded(level)
    ensures |formatted| == if |level| >= LevelWidth then |level| else LevelWidth
    ensures formatted[..|level|] == level
    ensures forall k :: |level| <= k < |formatted| ==> formatted[k] == ' '
  {
    formatted := level;
    while |formatted| < LevelWidth
      invariant |level| <= |formatted| && (|level| < LevelWidth ==> |formatted| <= LevelWidth)
      invariant formatted == level + Spaces(|formatted| - |level|)
      invariant |level| >= LevelWidth ==> formatted == level
      decreases LevelWidth - |formatted|
    {
      formatted := formatted + " ";
      assert formatted == level + Spaces(|formatted| - |level|);
    }
  }

  /**
   * Padding and the parser's trimming undo each other: a level that does
   * not end with a space comes back from its padded column unchanged.
   */
  lemma PaddedLevelReadsBack(level: string)
    requires level != [] && level[|level| - 1] != ' '
    ensures LevelOf(Padded(level)) == level
  {
    var p := Padded(level);
    assert p[..|level|] == level;
    assert p[|level| - 1] != ' ';
    assert forall k :: |level| <= k < |p| ==> p[k] == ' ';
    LastNonSpaceOver(p, |level| - 1);
  }

  /** The last non-space is `i` when everything after it is a space. */
  lemma {:induction false} LastNonSpaceOver(s: string, i: nat)
    requires i < |s| && s[i] != ' '
    requires forall k :: i < k < |s| ==> s[k] == ' '
    ensures LastNonSpace(s) == Some(i)
    decreases |s|
  {
    if i < |s| - 1 {
      LastNonSpaceOver(s[..|s| - 1], i);
    }
  }

  // ---------------------------------------------------------------------
  // The trailing line-break trim in logInternal

  predicate LineBreak(c: char) { c == '\n' || c == '\r' }

  /** The message without its trailing line breaks. */
  function Chomp(s: string): (r: string)
    ensures |r| <= |s| && r == s[..|r|]
    ensures r == [] || !LineBreak(r[|r| - 1])
    ensures forall k :: |r| <= k < |s| ==> LineBreak(s[k])
  {
    if s != [] && LineBreak(s[|s| - 1]) then Chomp(s[..|s| - 1]) else s
  }

  /** The trim loop: pops line breaks off the end. */
  method TrimLineEnd(msg: string) returns (clean: string)
    ensures clean == Chomp(msg)
  {
    clean := msg;
    while clean != [] && LineBreak(clean[|clean| - 1])
      invariant Chomp(clean) == Chomp(msg)
      decreases |clean|
    {
      clean := clean[..|clean| - 1];
    }
  }

  /** Trimming twice is trimming once. */
  lemma ChompIdempotent(s: string)
    ensures Chomp(Chomp(s)) == Chomp(s)
  {
  }

  /**
   * Only the trailing breaks go: text that ends with something else keeps
   * everything before it, line breaks in the middle included.
   */
  lemma {:induction false} ChompKeepsBody(body: string, tail: string)
    requires body != [] && !LineBreak(body[|body| - 1])
    requires forall k :: 0 <= k < |tail| ==> LineBreak(tail[k])
    ensures Chomp(body + tail) == body
    decreases |tail|
  {
    if tail == [] {
      assert body + tail == body;
    } else {
      assert (body + tail)[..|body + tail| - 1] == body + tail[..|tail| - 1];
      ChompKeepsBody(body, tail[..|tail| - 1]);
    }
  }

  // ---------------------------------------------------------------------
  // The log file

  /** One line of the log file: timestamp, padded level, and the trimmed message. */
  function Line(timestamp: string, level: string, msg: string): string
  {
    "[" + timestamp + "] " + ("[" + Padded(level) + "] ") + Chomp(msg)
  }

  /**
   * Reading a line back: the timestamp field, the level column (as wide as
   * the level, at least nine) and the message sit at offsets fixed by the
   * lengths of the timestamp and the level, and the line never ends in a
   * line break of the message's.
   */
  lemma LineFields(timestamp: string, level: string, msg: string)
    ensures var line := Line(timestamp, level, msg);
            var w := if |level| >= LevelWidth then |level| else LevelWidth;
            |Padded(level)| == w &&
            line[..|timestamp| + 3] == "[" + timestamp + "] " &&
            line[|timestamp| + 3..|timestamp| + 6 + w] == "[" + Padded(level) + "] " &&
            line[|timestamp| + 6 + w..] == Chomp(msg) &&
            (Chomp(msg) != [] ==> !LineBreak(line[|line| - 1]))
  {
    SplitThree("[" + timestamp + "] ", "[" + Padded(level) + "] ", Chomp(msg));
  }

  /** The three parts of a concatenation, cut back out of it. */
  lemma SplitThree(a: string, b: string, c: string)
    ensures (a + b + c)[..|a|] == a
    ensures (a + b + c)[|a|..|a| + |b|] == b
    ensures (a + b + c)[|a| + |b|..] == c
  {
    assert (a + b + c)[..|a|] == a;
    assert (a + b + c)[|a|..|a| + |b|] == b;
  }

  /** The singleton log writer; the file it appends to is `lines`. */
  class Logger {
    var lines: seq<string>

    constructor ()
      ensures lines == []
    {
      lines := [];
    }

    /**
     * logInternal: one line for the level and the message, when the file
     * opens; nothing otherwise.
     */
    method LogInternal(level: string, msg: string, timestamp: string, fileOpens: bool)
      modifies this
      ensures fileOpens ==> lines == old(lines) + [Line(timestamp, level, msg)]
      ensures !fileOpens ==> lines == old(lines)
    {
      if fileOpens {
        var clean := TrimLineEnd(msg);
        var column := FormatLevel(level);
        lines := lines + ["[" + timestamp + "] " + ("[" + column + "] ") + clean];
      }
    }

    /** write: SignalR's entry, split into its level and message. */
    method Write(entry: string, timestamp: string, fileOpens: bool)
      modifies this
      ensures var p := Parse(entry);
              lines == old(lines) + (if fileOpens then [Line(timestamp, p.level, p.message)] else [])
    {
      var level, cleanMsg := ParseSignalRMessage(entry);
      LogInternal(level, cleanMsg, timestamp, fileOpens);
    }

    method Info(msg: string, timestamp: string, fileOpens: bool)
      modifies this
      ensures lines == old(lines) + (if fileOpens then [Line(timestamp, "info", msg)] else [])
    {
      LogInternal("info", msg, timestamp, fileOpens);
    }

    method Error(msg: string, timestamp: string, fileOpens: bool)
      modifies this
      ensures lines == old(lines) + (if fileOpens then [Line(timestamp, "error", msg)] else [])
    {
      LogInternal("error", msg, timestamp, fileOpens);
    }

    method Success(msg: string, timestamp: string, fileOpens: bool)
      modifies this
      ensures lines == old(lines) + (if fileOpens then [Line(timestamp, "success", msg)] else [])
    {
      LogInternal("success", msg, timestamp, fileOpens);
    }

    method Debug(msg: string, timestamp: string, fileOpens: bool)
      modifies this
      ensures lines == old(lines) + (if fileOpens then [Line(timestamp, "debug", msg)] else [])
    {
      LogInternal("debug", msg, timestamp, fileOpens);
    }

    /** luaError: the event's name and the Lua error under the level "lua_error". */
    method LuaError(eventName: string, err: string, timestamp: string, fileOpens: bool)
      modifies this
      ensures lines == old(lines) +
                       (if fileOpens then [Line(timestamp, "lua_error", "Event '" + eventName + "': " + err)] else [])
    {
      LogInternal("lua_error", "Event '" + eventName + "': " + err, timestamp, fileOpens);
    }
  }
}
