/** Full names as people type them: words, and the two or three parts of a name. */
module PersonNames {
  import opened Options

  // The characters on which a text is split into words.
  predicate Space(c: char)
  {
    || '\U{0009}' <= c <= '\U{000D}' || '\U{001C}' <= c <= '\U{0020}'
    || c == '\U{0085}' || c == '\U{00A0}' || c == '\U{1680}'
    || '\U{2000}' <= c <= '\U{200A}' || c == '\U{2028}' || c == '\U{2029}'
    || c == '\U{202F}' || c == '\U{205F}' || c == '\U{3000}'
  }

  predicate IsWord(w: string)
  {
    w != "" && forall i :: 0 <= i < |w| ==> !Space(w[i])
  }

  // The length of the word a text starts with.
  function WordEnd(s: string): (n: nat)
    ensures n <= |s| && (forall i :: 0 <= i < n ==> !Space(s[i])) && (n < |s| ==> Space(s[n]))
  {
    if s == "" || Space(s[0]) then 0 else 1 + WordEnd(s[1..])
  }

  function Words(s: string): (words: seq<string>)
    ensures forall i :: 0 <= i < |words| ==> IsWord(words[i])
    decreases |s|
  {
    if s == "" then []
    else if Space(s[0]) then Words(s[1..])
    else [s[..WordEnd(s)]] + Words(s[WordEnd(s)..])
  }

  function Joined(words: seq<string>): string
  {
    if words == [] then "" else if |words| == 1 then words[0] else words[0] + " " + Joined(words[1..])
  }

  lemma {:induction false} WordEndOf(w: string, rest: string)
    requires IsWord(w) && (rest == "" || Space(rest[0]))
    ensures WordEnd(w + rest) == |w|
  {
    if |w| == 1 {
      assert (w + rest)[1..] == rest;
    } else {
      assert (w + rest)[1..] == w[1..] + rest;
      WordEndOf(w[1..], rest);
    }
  }

  /** A surname and a name, put together, split into exactly that surname and name. */
  lemma TwoWords(surname: string, name: string)
    requires IsWord(surname) && IsWord(name)
    ensures Words(surname + " " + name) == [surname, name]
  {
    var s := surname + " " + name;
    WordEndOf(surname, " " + name);
    assert s == surname + (" " + name);
    assert s[|surname|..] == " " + name && s[..|surname|] == surname;
    assert !Space(s[0]) by { assert s[0] == surname[0]; }
    assert Words(s) == [surname] + Words(" " + name);
    assert (" " + name)[1..] == name;
    WordEndOf(name, "");
    assert name + "" == name && name[|name|..] == "" && name[..|name|] == name;
    assert Words(name) == [name] + Words("");
  }

  datatype Alphabet = Cyrillic | Latin

  predicate Letter(alphabet: Alphabet, c: char)
  {
    match alphabet
    case Cyrillic => '\U{0410}' <= c <= '\U{044F}' || c == '\U{0401}' || c == '\U{0451}'
    case Latin => 'A' <= c <= 'Z' || 'a' <= c <= 'z'
  }

  predicate Joint(alphabet: Alphabet, c: char)
  {
    c == '-' || (alphabet.Latin? && c == '\'')
  }

  // Runs of letters with single joints between them.
  predicate NamePart(alphabet: Alphabet, w: string)
  {
    && 1 <= |w| <= 100 && Letter(alphabet, w[0]) && Letter(alphabet, w[|w|-1])
    && (forall i :: 0 <= i < |w| ==> Letter(alphabet, w[i]) || Joint(alphabet, w[i]))
    && (forall i :: 0 <= i < |w| - 1 ==> Letter(alphabet, w[i]) || Letter(alphabet, w[i+1]))
  }

  // A missing patronym is written as a dash.
  const NO_PATRONYM: string := "-"

  datatype FullName = FullName(surname: string, name: string, patronym: string)

  function ParseFullName(alphabet: Alphabet, value: string): Option<FullName>
  {
    var parts := Words(value);
    if (|parts| != 2 && |parts| != 3) || |Joined(parts)| > 300
       || exists i :: 0 <= i < |parts| && !NamePart(alphabet, parts[i]) then None
    else Some(FullName(parts[0], parts[1], if |parts| == 3 then parts[2] else NO_PATRONYM))
  }

  function SurnameAndName(value: string): string
  {
    var words := Words(value);
    Joined(if |words| > 2 then words[..2] else words)
  }

  function Displayed(surname: string, name: string): string
  {
    surname + " " + name
  }

  /** A parsed name: its displayed form is the surname and the name, which can be taken apart again, and
      the dash stands for a missing patronym only. */
  lemma ParsedName(alphabet: Alphabet, value: string)
    requires ParseFullName(alphabet, value).Some?
    ensures var parsed := ParseFullName(alphabet, value).value;
            && IsWord(parsed.surname) && IsWord(parsed.name)
            && SurnameAndName(value) == Displayed(parsed.surname, parsed.name)
            && Words(SurnameAndName(value)) == [parsed.surname, parsed.name]
            && (parsed.patronym == NO_PATRONYM <==> |Words(value)| == 2)
  {
    var parts := Words(value);
    assert NamePart(alphabet, parts[0]) && NamePart(alphabet, parts[1]) && NamePart(alphabet, parts[|parts|-1]);
    TwoWords(parts[0], parts[1]);
    FirstTwo(parts);
  }

  lemma FirstTwo(words: seq<string>)
    requires |words| >= 2
    ensures Joined(if |words| > 2 then words[..2] else words) == Displayed(words[0], words[1])
  {
    var two := if |words| > 2 then words[..2] else words;
    assert two[1..] == [words[1]];
    assert words[0] + " " + words[1] == two[0] + " " + Joined([words[1]]);
  }
}
