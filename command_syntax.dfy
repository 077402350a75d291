/**
 * The command syntax shared by both dispatch pipelines: a message text that
 * begins with `/` and a run of word characters (the regular expression
 * `^/(\w+)`) names a command; the rest of the text, with its leading
 * whitespace removed, is the command's argument text.
 */
module CommandSyntax {
  import opened Wrappers
  import opened Strings

  /** A parsed command: its name and its argument text. */
  datatype Command = Command(name: string, text: string)

  predicate AllWordChars(s: string)
  {
    forall i :: 0 <= i < |s| ==> IsWordChar(s[i])
  }

  /** Length of the run of word characters that starts `s` (what the greedy `\w+` consumes). */
  function WordRun(s: string): (n: nat)
    ensures n <= |s| && AllWordChars(s[..n])
    ensures n < |s| ==> !IsWordChar(s[n])
  {
    if s == [] || !IsWordChar(s[0]) then 0 else 1 + WordRun(s[1..])
  }

  /**
   * `parse_command`: a command exactly when the text starts with `/` and a
   * word character. ParseCommandName and ParseCommandArgs say what its name
   * and argument text are.
   */
  function ParseCommand(text: string): (r: Option<Command>)
    ensures r.Some? <==> |text| >= 2 && text[0] == '/' && IsWordChar(text[1])
  {
    if |text| >= 2 && text[0] == '/' && IsWordChar(text[1]) then
      var n := WordRun(text[1..]);
      Some(Command(text[1..1 + n], LStrip(text[1 + n..])))
    else
      None
  }

  /** The name of a parsed command is the maximal run of word characters after the `/`. */
  lemma ParseCommandName(text: string)
    ensures ParseCommand(text).Some? ==>
      var name := ParseCommand(text).value.name;
      && name != [] && AllWordChars(name)
      && 1 + |name| <= |text|
      && text[..1 + |name|] == "/" + name
      && (1 + |name| == |text| || !IsWordChar(text[1 + |name|]))
  {
    if |text| >= 2 && text[0] == '/' && IsWordChar(text[1]) {
      var n := WordRun(text[1..]);
      assert text[1..1 + n] == text[1..][..n];
      assert text[..1 + n] == "/" + text[1..1 + n];
    }
  }

  /**
   * The argument text of a parsed command is the suffix of the text that is
   * left once the name and the whitespace after it are removed.
   */
  lemma ParseCommandArgs(text: string)
    ensures ParseCommand(text).Some? ==>
      var name, rest := ParseCommand(text).value.name, ParseCommand(text).value.text;
      && 1 + |name| + |rest| <= |text|
      && AllSpace(text[1 + |name|..|text| - |rest|])
      && text[|text| - |rest|..] == rest
      && (rest == [] || !IsSpace(rest[0]))
  {
    if |text| >= 2 && text[0] == '/' && IsWordChar(text[1]) {
      var n := WordRun(text[1..]);
      assert |text[1..1 + n]| == n;
      LStripOfSuffix(text, 1 + n);
    }
  }

  /** Stripping the leading whitespace of a suffix leaves a suffix of the whole text. */
  lemma LStripOfSuffix(text: string, k: nat)
    requires k <= |text|
    ensures var rest := LStrip(text[k..]);
      && k + |rest| <= |text|
      && AllSpace(text[k..|text| - |rest|])
      && text[|text| - |rest|..] == rest
      && (rest == [] || !IsSpace(rest[0]))
  {
    var m := LeadingSpace(text[k..]);
    assert LStrip(text[k..]) == text[k + m..];
    assert forall i :: 0 <= i < m ==> text[k..k + m][i] == text[k..][i];
  }

  /** Formatting a command and parsing it back gives the same command. */
  lemma ParseFormatted(name: string, gap: string, args: string)
    requires name != [] && AllWordChars(name)
    requires AllSpace(gap) && (gap != [] || args == [] || !IsWordChar(args[0]))
    requires args == [] || !IsSpace(args[0])
    ensures ParseCommand("/" + name + gap + args) == Some(Command(name, args))
  {
    var text := "/" + name + gap + args;
    FormattedName(name, gap + args);
    assert text == "/" + name + (gap + args);
    FormattedArgs(name, gap, args);
  }

  /** In `/name` followed by text that starts with no word character, the name is the whole run. */
  lemma FormattedName(name: string, tail: string)
    requires name != [] && AllWordChars(name)
    requires tail == [] || !IsWordChar(tail[0])
    ensures var text := "/" + name + tail;
      && |text| >= 2 && text[0] == '/' && IsWordChar(text[1])
      && WordRun(text[1..]) == |name|
      && text[1..1 + |name|] == name
      && text[1 + |name|..] == tail
  {
    var text := "/" + name + tail;
    assert text[1..] == name + tail;
    WordRunOfWord(name, tail);
  }

  /** After the name, the gap is stripped and the arguments are left. */
  lemma FormattedArgs(name: string, gap: string, args: string)
    requires AllSpace(gap) && (args == [] || !IsSpace(args[0]))
    ensures ("/" + name + gap + args)[1 + |name|..] == gap + args
    ensures LStrip(gap + args) == args
  {
    assert "/" + name + gap + args == ("/" + name) + (gap + args);
    LStripOfSpaces(gap, args);
  }

  lemma {:induction false} WordRunOfWord(w: string, s: string)
    requires AllWordChars(w)
    requires s == [] || !IsWordChar(s[0])
    ensures WordRun(w + s) == |w|
  {
    if w == [] {
      assert w + s == s;
    } else {
      assert (w + s)[1..] == w[1..] + s;
      WordRunOfWord(w[1..], s);
    }
  }
}
