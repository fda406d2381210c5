/** How aiogram's `Command("name")` and `CommandStart()` filters recognise a
    command: the text is split at the first run of whitespace, and the first
    word must be the prefix "/" followed by the command name, compared
    case-sensitively. Anything after the first word is the command's argument. */
module Commands {
  import opened Numbers

  /** The number of whitespace characters `str.split()` skips at the front of `s`. */
  function LeadingWhitespace(s: string): (n: nat)
    ensures n <= |s|
  {
    if s != [] && IsSpace(s[0]) then 1 + LeadingWhitespace(s[1..]) else 0
  }

  function SkipWhitespace(s: string): string
  {
    s[LeadingWhitespace(s)..]
  }

  lemma {:induction false} SkipWhitespaceOfPadding(pad: string, s: string)
    requires forall i :: 0 <= i < |pad| ==> IsSpace(pad[i])
    requires s == [] || !IsSpace(s[0])
    ensures SkipWhitespace(pad + s) == s
  {
    if pad != [] {
      assert (pad + s)[1..] == pad[1..] + s;
      SkipWhitespaceOfPadding(pad[1..], s);
    }
  }

  /** The leading run of non-space characters of `s`. */
  function TakeWord(s: string): string
  {
    if s == [] || IsSpace(s[0]) then [] else [s[0]] + TakeWord(s[1..])
  }

  /** The word is a prefix of the text, holds no whitespace, and stops at the
      end of the text or at a whitespace character. */
  lemma {:induction false} TakeWordIsLeadingWord(s: string)
    ensures |TakeWord(s)| <= |s| && TakeWord(s) == s[..|TakeWord(s)|]
    ensures forall i :: 0 <= i < |TakeWord(s)| ==> !IsSpace(TakeWord(s)[i])
    ensures |TakeWord(s)| == |s| || IsSpace(s[|TakeWord(s)|])
  {
    if s != [] && !IsSpace(s[0]) {
      TakeWordIsLeadingWord(s[1..]);
    }
  }

  /** The first whitespace-separated word of the text, or "" when there is none. */
  function FirstWord(text: string): string
  {
    TakeWord(SkipWhitespace(text))
  }

  predicate IsCommand(text: string, name: string)
  {
    FirstWord(text) == "/" + name
  }

  /** The commands the router registers: `/start`, `/get_profile`,
      `/calculate_daily_water` and `/log_water`. */
  predicate IsKnownCommand(text: string)
  {
    IsCommand(text, "start") || IsCommand(text, "get_profile")
    || IsCommand(text, "calculate_daily_water") || IsCommand(text, "log_water")
  }

  /** A text matches a command only if, after leading whitespace, it starts with "/". */
  lemma CommandStartsWithSlash(text: string, name: string)
    requires IsCommand(text, name)
    ensures SkipWhitespace(text) != [] && SkipWhitespace(text)[0] == '/'
  {
    TakeWordIsLeadingWord(SkipWhitespace(text));
  }

  /** A text whose first character is neither whitespace nor "/" is no command. */
  lemma NoSlashIsNoCommand(text: string, name: string)
    requires text != [] && !IsSpace(text[0]) && text[0] != '/'
    ensures !IsCommand(text, name)
  {
    if IsCommand(text, name) {
      CommandStartsWithSlash(text, name);
    }
  }

  /** A bare command and a command followed by an argument both match, and
      nothing longer than the name does: "/start" and "/start promo" match
      `/start`, "/starts" does not. */
  lemma {:induction false} CommandWithArgument(name: string, argument: string)
    requires forall i :: 0 <= i < |name| ==> !IsSpace(name[i])
    requires argument == [] || IsSpace(argument[0])
    ensures IsCommand("/" + name + argument, name)
  {
    var w := "/" + name;
    WordThenSpace(w, argument);
    assert SkipWhitespace(w + argument) == w + argument;
  }

  lemma {:induction false} WordThenSpace(w: string, rest: string)
    requires forall i :: 0 <= i < |w| ==> !IsSpace(w[i])
    requires rest == [] || IsSpace(rest[0])
    ensures TakeWord(w + rest) == w
  {
    if w != [] {
      assert (w + rest)[1..] == w[1..] + rest;
      WordThenSpace(w[1..], rest);
    }
  }

  /** Whitespace before the command does not matter, whichever of Python's
      whitespace characters it is: "  /start" and "\u00a0/start promo" match
      `/start`. */
  lemma PaddedCommand(pad: string, name: string, argument: string)
    requires forall i :: 0 <= i < |pad| ==> IsSpace(pad[i])
    requires forall i :: 0 <= i < |name| ==> !IsSpace(name[i])
    requires argument == [] || IsSpace(argument[0])
    ensures IsCommand(pad + "/" + name + argument, name)
  {
    var w := "/" + name;
    assert pad + "/" + name + argument == pad + (w + argument);
    SkipWhitespaceOfPadding(pad, w + argument);
    WordThenSpace(w, argument);
  }

  /** A no-break space (U+00A0) before the command is skipped like an ASCII space. */
  lemma NoBreakSpaceBeforeCommand(nbsp: char)
    requires nbsp as int == 0xA0
    ensures IsCommand([nbsp] + "/start", "start")
  {
    assert forall i :: 0 <= i < |"start"| ==> !IsSpace("start"[i]);
    PaddedCommand([nbsp], "start", "");
    assert [nbsp] + "/" + "start" + "" == [nbsp] + "/start";
  }

  /** A no-break space (U+00A0) ends the command word like an ASCII space. */
  lemma NoBreakSpaceBeforeArgument(nbsp: char)
    requires nbsp as int == 0xA0
    ensures IsCommand("/start" + [nbsp] + "promo", "start")
  {
    assert forall i :: 0 <= i < |"start"| ==> !IsSpace("start"[i]);
    CommandWithArgument("start", [nbsp] + "promo");
    assert "/" + "start" + ([nbsp] + "promo") == "/start" + [nbsp] + "promo";
  }

  /** A text is a command for at most one name. */
  lemma CommandNameIsUnique(text: string, a: string, b: string)
    requires IsCommand(text, a) && IsCommand(text, b)
    ensures a == b
  {
    assert ("/" + a)[1..] == a && ("/" + b)[1..] == b;
  }
}
