/** The nusantara_log personality of the daemon binary (jni/main.c, lines
    54-80): `nusantara_log <TAG> <LEVEL> <MESSAGE...>` checks the level and
    joins the message words with single spaces into a buffer sized from the
    words, then logs the result. */
module LogCommand {
  import opened Text

  const LogDebug := 0
  const LogFatal := 4

  /** How the command ends: the usage message, the level error, or a log
      call with level, tag and message. */
  datatype CliResult = Usage | InvalidLevel | Logged(level: int, tag: string, message: string)

  /** The words joined with single spaces. */
  function Join(words: seq<string>): string {
    if |words| == 0 then ""
    else if |words| == 1 then words[0]
    else Join(words[..|words| - 1]) + " " + words[|words| - 1]
  }

  /** Lines 66-68: the buffer size the source computes, one byte per
      character of each word plus one for each word's separator or for the
      terminating NUL. */
  function ArgBytes(words: seq<string>): (n: nat)
    ensures n >= |words|
  {
    if |words| == 0 then 0
    else ArgBytes(words[..|words| - 1]) + |words[|words| - 1]| + 1
  }

  /** When there is at least one word, the source's buffer holds the joined
      message and its terminating NUL exactly. */
  lemma {:induction false} ArgBytesFitsJoin(words: seq<string>)
    requires |words| >= 1
    ensures ArgBytes(words) == |Join(words)| + 1
  {
    if |words| > 1 {
      var init := words[..|words| - 1];
      ArgBytesFitsJoin(init);
    } else {
      assert words[..0] == [];
    }
  }

  /** The buffer size the corrected code allocates: one more byte than the
      source's, so that the joined message and its terminator always fit,
      with no words too. */
  function MessageCapacity(words: seq<string>): (n: nat)
    ensures |Join(words)| + 1 <= n
  {
    if |words| == 0 then 1
    else
      ArgBytesFitsJoin(words);
      ArgBytes(words) + 1
  }

  /** With argc == 3 there are no message words: the source's buffer has
      length 0, so its write `message[0] = '\0'` is out of bounds, while the
      corrected buffer has room for it. */
  lemma EmptyMessageOverflows(argv: seq<string>)
    requires |argv| == 3
    ensures ArgBytes(argv[3..]) == 0
    ensures MessageCapacity(argv[3..]) == 1
  {
  }

  /** A prefix of the words never needs more bytes than all of them. */
  lemma {:induction false} ArgBytesPrefix(words: seq<string>, i: nat)
    requires i <= |words|
    ensures ArgBytes(words[..i]) <= ArgBytes(words)
    decreases |words|
  {
    if i < |words| {
      var init := words[..|words| - 1];
      assert words[..i] == init[..i];
      ArgBytesPrefix(init, i);
    } else {
      assert words[..i] == words;
    }
  }

  /** The joined message grows one word at a time. */
  lemma JoinStep(words: seq<string>, i: nat)
    requires i < |words|
    ensures Join(words[..i + 1]) == Join(words[..i]) + (if i > 0 then " " else "") + words[i]
  {
    assert words[..i + 1][..i] == words[..i];
    if i == 0 {
      assert Join(words[..0]) == "";
    }
  }

  /** strcat into a buffer holding a C string of length `used` (its first
      NUL is at `used`): the text is copied over the terminator and a new
      terminator follows it. */
  method StrCat(buffer: array<char>, used: nat, text: string) returns (newUsed: nat)
    requires used + |text| < buffer.Length
    requires buffer[used] == '\0' && '\0' !in buffer[..used]
    requires '\0' !in text
    modifies buffer
    ensures newUsed == used + |text|
    ensures buffer[..newUsed] == old(buffer[..used]) + text && buffer[newUsed] == '\0'
    ensures '\0' !in buffer[..newUsed]
  {
    forall j | 0 <= j < |text| {
      buffer[used + j] := text[j];
    }
    buffer[used + |text|] := '\0';
    newUsed := used + |text|;
    assert buffer[..newUsed] == old(buffer[..used]) + text;
  }

  /** Lines 74-76, one pass: strcat of word i and, unless it is the last,
      of a space, into the buffer holding the message built so far. */
  method AppendWord(buffer: array<char>, used: nat, words: seq<string>, i: nat) returns (newUsed: nat)
    requires i < |words| && forall k :: 0 <= k < |words| ==> '\0' !in words[k]
    requires buffer.Length == MessageCapacity(words) && used == ArgBytes(words[..i])
    requires used < buffer.Length && buffer[used] == '\0' && '\0' !in buffer[..used]
    requires buffer[..used] == Join(words[..i]) + (if i > 0 then " " else "")
    modifies buffer
    ensures newUsed < buffer.Length && buffer[newUsed] == '\0' && '\0' !in buffer[..newUsed]
    ensures i + 1 < |words| ==> newUsed == ArgBytes(words[..i + 1])
    ensures buffer[..newUsed] == Join(words[..i + 1]) + (if i + 1 < |words| then " " else "")
  {
    var word := words[i];
    ArgBytesPrefix(words, i + 1);
    assert words[..i + 1][..i] == words[..i] && words[..i + 1][i] == word;
    assert ArgBytes(words[..i + 1]) == used + |word| + 1;
    JoinStep(words, i);
    newUsed := StrCat(buffer, used, word);
    if i < |words| - 1 {
      ArgBytesFitsJoin(words[..i + 1]);
      newUsed := StrCat(buffer, newUsed, " ");
    }
  }

  /** Lines 70-77 with the buffer one byte larger: `message[0] = '\0'`, then
      strcat of each word and of a space after every word but the last.
      `used` is strlen(message), the index of the terminating NUL. */
  method BuildMessage(words: seq<string>) returns (message: string)
    requires forall i :: 0 <= i < |words| ==> '\0' !in words[i]
    ensures message == Join(words)
  {
    var buffer := new char[MessageCapacity(words)];
    buffer[0] := '\0';
    var used: nat := 0;
    var i := 0;
    while i < |words|
      invariant 0 <= i <= |words|
      invariant i < |words| ==> used == ArgBytes(words[..i])
      invariant used < buffer.Length && buffer[used] == '\0' && '\0' !in buffer[..used]
      invariant buffer[..used] == Join(words[..i]) + (if 0 < i < |words| then " " else "")
    {
      used := AppendWord(buffer, used, words, i);
      i := i + 1;
    }
    assert words[..i] == words;
    message := buffer[..used];
  }

  /** The command: fewer than three arguments print the usage, a level
      outside 0..4 (as atoi reads it) is refused, and otherwise the words
      from argv[3] on are logged, joined with single spaces, under the tag
      argv[1]. The arguments are C strings, so none of them holds a NUL. */
  method LogCli(argv: seq<string>) returns (r: CliResult)
    requires forall i :: 0 <= i < |argv| ==> '\0' !in argv[i]
    ensures |argv| < 3 <==> r == Usage
    ensures |argv| >= 3 ==> (r == InvalidLevel <==> !(LogDebug <= Atoi(argv[2]) <= LogFatal))
    ensures r.Logged? ==> r == Logged(Atoi(argv[2]), argv[1], Join(argv[3..]))
  {
    if |argv| < 3 {
      return Usage;
    }
    var level := Atoi(argv[2]);
    if level < LogDebug || level > LogFatal {
      return InvalidLevel;
    }
    assert forall i :: 0 <= i < |argv[3..]| ==> argv[3..][i] == argv[i + 3];
    var message := BuildMessage(argv[3..]);
    r := Logged(level, argv[1], message);
  }

  /** atoi reads a level that is not a number as 0, so such a level is
      accepted as DEBUG rather than refused. */
  lemma WordLevelIsDebug(level: string)
    requires |level| > 0 && !IsSpace(level[0]) && !IsDigit(level[0])
    requires level[0] != '-' && level[0] != '+'
    ensures Atoi(level) == LogDebug
  {
    assert SkipSpace(level) == level;
    assert LeadingDigits(level) == [];
  }
}
