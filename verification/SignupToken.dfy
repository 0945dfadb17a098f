/** Signup links: a readable token for a game, and the start command that carries it back. */
module SignupToken {
  import opened Options
  import PersonNames

  const MAX_START_PARAMETER_LENGTH: nat := 64

  predicate AsciiLetter(c: char) { 'a' <= c <= 'z' || 'A' <= c <= 'Z' }
  predicate Digit(c: char) { '0' <= c <= '9' }
  predicate Alphanumeric(c: char) { AsciiLetter(c) || Digit(c) }

  predicate TokenText(s: string)
  {
    forall i :: 0 <= i < |s| ==> Alphanumeric(s[i]) || s[i] == '_'
  }

  // The Latin spelling of a lower-case Cyrillic letter.
  function Spelling(letter: string): Option<string>
  {
    if letter == "а" then Some("a") else if letter == "б" then Some("b") else if letter == "в" then Some("v")
    else if letter == "г" then Some("g") else if letter == "д" then Some("d") else if letter == "е" then Some("e")
    else if letter == "ё" then Some("yo") else if letter == "ж" then Some("zh") else if letter == "з" then Some("z")
    else if letter == "и" then Some("i") else if letter == "й" then Some("y") else if letter == "к" then Some("k")
    else if letter == "л" then Some("l") else if letter == "м" then Some("m") else if letter == "н" then Some("n")
    else if letter == "о" then Some("o") else if letter == "п" then Some("p") else if letter == "р" then Some("r")
    else if letter == "с" then Some("s") else if letter == "т" then Some("t") else if letter == "у" then Some("u")
    else if letter == "ф" then Some("f") else if letter == "х" then Some("kh") else if letter == "ц" then Some("ts")
    else if letter == "ч" then Some("ch") else if letter == "ш" then Some("sh") else if letter == "щ" then Some("shch")
    else if letter == "ъ" then Some("") else if letter == "ы" then Some("y") else if letter == "ь" then Some("")
    else if letter == "э" then Some("e") else if letter == "ю" then Some("yu") else if letter == "я" then Some("ya")
    else None
  }

  function Capitalized(s: string): string
  {
    if s == "" || !('a' <= s[0] <= 'z') then s else [(s[0] as int - 32) as char] + s[1..]
  }

  // Case folding and upper case are Unicode's; nothing here depends on what they are.
  datatype Unicode = Unicode(fold: char -> string, upper: char -> bool)

  function Transliterated(unicode: Unicode, c: char): (r: string)
    ensures TokenText(r)
  {
    var spelling := Spelling(unicode.fold(c));
    if spelling.Some? then
      SpellingIsLatin(unicode.fold(c));
      if unicode.upper(c) then Capitalized(spelling.value) else spelling.value
    else if Alphanumeric(c) then [c] else "_"
  }

  lemma SpellingIsLatin(letter: string)
    requires Spelling(letter).Some?
    ensures forall i :: 0 <= i < |Spelling(letter).value| ==> 'a' <= Spelling(letter).value[i] <= 'z'
  {
  }

  method Transliterate(unicode: Unicode, name: string) returns (text: string)
    ensures TokenText(text)
    ensures text == AllTransliterated(unicode, name)
  {
    text := "";
    for i := 0 to |name|
      invariant TokenText(text) && text == AllTransliterated(unicode, name[..i])
    {
      assert name[..i+1][..i] == name[..i];
      text := text + Transliterated(unicode, name[i]);
    }
    assert name[..|name|] == name;
  }

  function AllTransliterated(unicode: Unicode, name: string): string
  {
    if name == "" then "" else AllTransliterated(unicode, name[..|name|-1]) + Transliterated(unicode, name[|name|-1])
  }

  // Runs of underscores become one.
  function Collapsed(s: string): (r: string)
    requires TokenText(s)
    ensures TokenText(r) && (r == "" <==> s == "") && (s != "" ==> r[0] == s[0])
    ensures forall i :: 0 <= i < |r| - 1 ==> r[i] != '_' || r[i+1] != '_'
  {
    if s == "" then ""
    else
      var rest := Collapsed(s[1..]);
      if s[0] == '_' && rest != "" && rest[0] == '_' then rest else [s[0]] + rest
  }

  function TrimmedLeft(s: string): (r: string)
    requires TokenText(s)
    ensures TokenText(r) && (r != "" ==> r[0] != '_')
  {
    if s != "" && s[0] == '_' then TrimmedLeft(s[1..]) else s
  }

  function TrimmedRight(s: string): (r: string)
    requires TokenText(s)
    ensures TokenText(r) && |r| <= |s| && r <= s && (r != "" ==> r[|r|-1] != '_')
    ensures s != "" && s[0] != '_' ==> r != ""
  {
    if s != "" && s[|s|-1] == '_' then TrimmedRight(s[..|s|-1]) else s
  }

  function OrGame(s: string): string { if s == "" then "game" else s }

  // At least `width` digits.
  function Padded(n: nat, width: nat): (r: string)
    ensures (forall i :: 0 <= i < |r| ==> Digit(r[i])) && |r| >= width
    ensures (n == 0 && width == 0 ==> |r| == 0) && (n < 10 && width <= 1 ==> |r| <= 1)
    ensures (n < 100 && width <= 2 ==> |r| <= 2)
    ensures (n < 1000 && width <= 3 ==> |r| <= 3) && (n < 10000 && width <= 4 ==> |r| <= 4)
    decreases n, width
  {
    if n == 0 && width == 0 then ""
    else Padded(n / 10, if width == 0 then 0 else width - 1) + [(n % 10 + '0' as int) as char]
  }

  datatype Date = Date(day: nat, month: nat, year: nat)

  predicate ValidDate(d: Date)
  {
    1 <= d.day <= 31 && 1 <= d.month <= 12 && 1 <= d.year <= 9999
  }

  function Tail(date: Date, suffix: string): string
  {
    "_" + Padded(date.day, 2) + "_" + Padded(date.month, 2) + "_" + Padded(date.year, 1) + "_" + suffix
  }

  predicate ValidSuffix(suffix: string)
  {
    |suffix| == 3 && forall i :: 0 <= i < 3 ==> Alphanumeric(suffix[i])
  }

  function Stripped(s: string): string
  {
    if s == "" then ""
    else if PersonNames.Space(s[0]) then Stripped(s[1..])
    else if PersonNames.Space(s[|s|-1]) then Stripped(s[..|s|-1])
    else s
  }

  predicate StartParameter(s: string)
  {
    1 <= |s| <= MAX_START_PARAMETER_LENGTH && TokenText(s)
  }

  // A name part that needs no more than the space the tail leaves.
  predicate NamePart(s: string)
  {
    s != "" && TokenText(s) && s[0] != '_' && s[|s|-1] != '_'
  }

  lemma TailFits(date: Date, suffix: string)
    requires ValidDate(date) && ValidSuffix(suffix)
    ensures TokenText(Tail(date, suffix)) && 12 <= |Tail(date, suffix)| <= 15
  {
    var d, m, y := Padded(date.day, 2), Padded(date.month, 2), Padded(date.year, 1);
    assert |Tail(date, suffix)| == 1 + |d| + 1 + |m| + 1 + |y| + 1 + |suffix|;
    TokenTextJoins("_", d);
    TokenTextJoins("_" + d, "_");
    TokenTextJoins("_" + d + "_", m);
    TokenTextJoins("_" + d + "_" + m, "_");
    TokenTextJoins("_" + d + "_" + m + "_", y);
    TokenTextJoins("_" + d + "_" + m + "_" + y, "_");
    TokenTextJoins("_" + d + "_" + m + "_" + y + "_", suffix);
  }

  lemma TokenTextJoins(a: string, b: string)
    requires TokenText(a) && TokenText(b)
    ensures TokenText(a + b)
  {
  }

  /** Every name, date and valid suffix make a token of 1 to 64 letters, digits and underscores: a name
      part that neither starts nor ends with an underscore, then the date and the suffix in full. */
  method GameSignupToken(unicode: Unicode, name: string, date: Date, suffix: string) returns (token: Result<string, ()>)
    requires ValidDate(date)
    ensures token.Ok? <==> ValidSuffix(suffix)
    ensures token.Ok? ==> StartParameter(token.value)
    ensures token.Ok? ==>
              exists part: string ::
                NamePart(part) && token.value == part + Tail(date, suffix) && part <= OrGame(Readable(unicode, name))
  {
    var transliterated := Transliterate(unicode, Stripped(name));
    var part := OrGame(TrimmedRight(TrimmedLeft(Collapsed(transliterated))));
    if !ValidSuffix(suffix) {
      return Err(());
    }
    var tail := Tail(date, suffix);
    TailFits(date, suffix);
    var room := MAX_START_PARAMETER_LENGTH - |tail|;
    var cut := if |part| <= room then part else part[..room];
    ReadablePart(unicode, name);
    var short := OrGame(TrimmedRight(cut));
    assert cut[0] == part[0];
    TokenTextJoins(short, tail);
    token := Ok(short + tail);
    assert NamePart(short) && short <= part;
  }

  function Readable(unicode: Unicode, name: string): string
  {
    TransliterationIsText(unicode, Stripped(name));
    TrimmedRight(TrimmedLeft(Collapsed(AllTransliterated(unicode, Stripped(name)))))
  }

  lemma {:induction false} TransliterationIsText(unicode: Unicode, name: string)
    ensures TokenText(AllTransliterated(unicode, name))
  {
    if name != "" {
      TransliterationIsText(unicode, name[..|name|-1]);
      TokenTextJoins(AllTransliterated(unicode, name[..|name|-1]), Transliterated(unicode, name[|name|-1]));
    }
  }

  lemma ReadablePart(unicode: Unicode, name: string)
    ensures NamePart(OrGame(Readable(unicode, name)))
  {
    TransliterationIsText(unicode, Stripped(name));
    var left := TrimmedLeft(Collapsed(AllTransliterated(unicode, Stripped(name))));
    var r := TrimmedRight(left);
    if r != "" {
      assert r[0] == left[0];
    }
  }

  // ----- The start command -----

  // The length of a run of the characters a bot's user name may have.
  function MentionEnd(s: string): (n: nat)
    ensures n <= |s|
  {
    if s == "" || !(Alphanumeric(s[0]) || s[0] == '_') then 0 else 1 + MentionEnd(s[1..])
  }

  // What follows the command word and an optional mention of the bot: nothing, or a parameter.
  function Parameter(rest: string): (bool, Option<string>)
  {
    if rest == "" then (true, None)
    else if (rest[0] == ' ' || rest[0] == '=') && |rest| > 1
            && forall i :: 1 <= i < |rest| ==> !PersonNames.Space(rest[i])
    then (true, Some(rest[1..]))
    else (false, None)
  }

  predicate AcceptedParameter(p: string)
  {
    1 <= |p| <= 64 && forall i :: 0 <= i < |p| ==> Alphanumeric(p[i]) || p[i] == '_' || p[i] == '-'
  }

  function StartCommand(vk: bool, value: string): (bool, Option<string>)
  {
    if vk then (value == "Начать" || value == "/start", None)
    else if !("/start" <= value) then (false, None)
    else
      var rest := value[6..];
      var mention := if rest != "" && rest[0] == '@' then MentionEnd(rest[1..]) else 0;
      var found :=
        if rest == "" || rest[0] != '@' then Parameter(rest)
        else if 5 <= mention <= 32 then Parameter(rest[1 + mention..])
        else (false, None);
      if !found.0 then (false, None)
      else if found.1.None? || !AcceptedParameter(found.1.value) then (true, None)
      else found
  }

  /** A start command with a signup token, on Telegram, is a start command with exactly that token; so is
      one that mentions the bot. */
  lemma StartCommandReturnsToken(token: string)
    requires StartParameter(token)
    ensures StartCommand(false, "/start " + token) == (true, Some(token))
  {
    var value := "/start " + token;
    assert value[..6] == "/start" && value[6..] == " " + token;
    assert (" " + token)[1..] == token;
  }

  lemma MentionEndOf(bot: string, rest: string)
    requires TokenText(bot) && rest != "" && rest[0] == ' '
    ensures MentionEnd(bot + rest) == |bot|
  {
    if bot == "" {
      assert bot + rest == rest;
    } else {
      assert (bot + rest)[1..] == bot[1..] + rest;
      MentionEndOf(bot[1..], rest);
    }
  }

  lemma MentionedStartCommandReturnsToken(bot: string, token: string)
    requires StartParameter(token) && TokenText(bot) && 5 <= |bot| <= 32
    ensures StartCommand(false, "/start@" + bot + " " + token) == (true, Some(token))
  {
    var value := "/start@" + bot + " " + token;
    var rest := " " + token;
    assert value == "/start@" + (bot + rest);
    assert value[..6] == "/start" && value[6..][0] == '@' && value[6..][1..] == bot + rest;
    MentionEndOf(bot, rest);
    assert value[6..][1 + |bot|..] == rest && rest[1..] == token;
  }
}
