/**
 * The naming helpers of the proto server generator: the flattening of
 * dotted type references, and the upper-camel-case form used for service,
 * method and field identifiers.
 *
 * `cases.Title(language.Und, cases.NoLower)` is a library call; it is
 * modelled over ASCII identifier characters. A word is a run of letters and
 * digits, and any other character (a space, punctuation) ends it. The first
 * letter of each word is upper-cased and every other character is kept, so
 * "2fa" becomes "2Fa" and "v1beta" becomes "V1beta".
 */
module Naming {

  /** The text of `s` before the first `sep`, or all of `s` when there is
      none: element 0 of `strings.Split(s, sep)`. */
  function UpTo(s: string, sep: char): (r: string)
    ensures r <= s
    ensures sep !in r
    ensures |r| == |s| || s[|r|] == sep
  {
    if s == [] || s[0] == sep then [] else [s[0]] + UpTo(s[1..], sep)
  }

  /** `strings.ReplaceAll` for a one-character pattern and replacement. */
  function ReplaceAll(s: string, from: char, to: char): (r: string)
    ensures |r| == |s|
    ensures forall i :: 0 <= i < |s| ==> r[i] == if s[i] == from then to else s[i]
  {
    if s == [] then [] else [if s[0] == from then to else s[0]] + ReplaceAll(s[1..], from, to)
  }

  /** `strings.ReplaceAll(s, c, "")`: `s` with every `c` removed. */
  function RemoveAll(s: string, c: char): (r: string)
    ensures c !in r
    ensures |r| <= |s|
    ensures forall x :: x != c ==> (x in r <==> x in s)
    ensures c !in s ==> r == s
  {
    if s == [] then []
    else if s[0] == c then RemoveAll(s[1..], c)
    else [s[0]] + RemoveAll(s[1..], c)
  }

  /** ASCII upper-casing of one character. */
  function Upper(c: char): char
  {
    if 'a' <= c <= 'z' then (c as int - 32) as char else c
  }

  /** An ASCII letter. */
  predicate IsLetter(c: char)
  {
    'a' <= c <= 'z' || 'A' <= c <= 'Z'
  }

  /** An ASCII digit: it continues a word without being a letter. */
  predicate IsDigit(c: char)
  {
    '0' <= c <= '9'
  }

  /** Whether the current word has had a letter, after `c` when it had
      one (`seen`) before: a letter gives one, a digit keeps what was there,
      and any other character ends the word. */
  function Next(c: char, seen: bool): bool
  {
    IsLetter(c) || (IsDigit(c) && seen)
  }

  /** Title-casing of `s` when the current word has had a letter exactly
      when `seen` holds: a letter of a word that has had none is
      upper-cased, and every other character is kept. */
  function TitleFrom(s: string, seen: bool): string
  {
    if s == [] then []
    else [if IsLetter(s[0]) && !seen then Upper(s[0]) else s[0]] + TitleFrom(s[1..], Next(s[0], seen))
  }

  /** Word-initial capitalisation without lower-casing (see the module
      comment for the scope of this abstraction). */
  function Title(s: string): string
  {
    TitleFrom(s, false)
  }

  /** `toUpperCamelCase`: underscores become word breaks, every word is
      capitalised, and the word breaks are removed. */
  function ToUpperCamelCase(s: string): (r: string)
    ensures '_' !in r && ' ' !in r
    ensures '.' in r ==> '.' in s
    ensures |r| <= |s|
  {
    var spaced := ReplaceAll(s, '_', ' ');
    TitleKeepsNonLetters(spaced, '_');
    TitleKeepsNonLetters(spaced, '.');
    TitleFromLength(spaced, false);
    RemoveAll(Title(spaced), ' ')
  }

  /** `parametersName`: a dotted type reference flattened to one token. */
  function ParametersName(name: string): (r: string)
    ensures |r| == |name|
    ensures '.' !in r
    ensures forall i :: 0 <= i < |name| ==> r[i] == if name[i] == '.' then '_' else name[i]
  {
    ReplaceAll(name, '.', '_')
  }

  /** `serviceName`: the leaf before the first dot, in upper camel case. */
  function ServiceName(name: string): (r: string)
    ensures '.' !in r && '_' !in r && ' ' !in r
    ensures |r| <= |name|
  {
    ToUpperCamelCase(UpTo(name, '.'))
  }

  /** `fieldName`: the same normalisation as `serviceName`. */
  function FieldName(name: string): (r: string)
    ensures r == ServiceName(name)
  {
    ToUpperCamelCase(UpTo(name, '.'))
  }

  /** No word of `s` begins with a lower-case letter, the first word
      having had a letter already when `seen` holds. */
  predicate CapitalisedFrom(s: string, seen: bool)
  {
    s == [] ||
    ((IsLetter(s[0]) && !seen ==> Upper(s[0]) == s[0]) && CapitalisedFrom(s[1..], Next(s[0], seen)))
  }

  /** The first letter of every word of `s` is upper-case. */
  predicate WordsCapitalised(s: string)
  {
    CapitalisedFrom(s, false)
  }

  /** A string that normalisation leaves as it is. */
  predicate IsNormalized(s: string)
  {
    '.' !in s && '_' !in s && ' ' !in s && WordsCapitalised(s)
  }

  lemma UpToWithoutSep(s: string, sep: char)
    requires sep !in s
    ensures UpTo(s, sep) == s
  {
  }

  lemma ReplaceAllSplit(a: string, b: string, from: char, to: char)
    requires from !in a
    ensures ReplaceAll(a, from, to) == a
    ensures ReplaceAll(a + [from] + b, from, to) == a + [to] + ReplaceAll(b, from, to)
  {
    var s := a + [from] + b;
    var r, rb := ReplaceAll(s, from, to), ReplaceAll(b, from, to);
    forall i | 0 <= i < |s| ensures r[i] == (a + [to] + rb)[i] {
      if i < |a| {
        assert a[i] in a;
      } else if i > |a| {
        assert s[i] == b[i - |a| - 1];
      }
    }
    forall i | 0 <= i < |a| ensures ReplaceAll(a, from, to)[i] == a[i] {
      assert a[i] in a;
    }
  }

  lemma {:induction false} RemoveAllSplit(a: string, b: string, c: char)
    requires c !in a
    ensures RemoveAll(a + [c] + b, c) == a + RemoveAll(b, c)
  {
    if a != [] {
      RemoveAllSplit(a[1..], b, c);
      assert (a + [c] + b)[1..] == a[1..] + [c] + b;
    }
  }

  lemma UpperIdempotent(c: char)
    ensures Upper(Upper(c)) == Upper(c)
    ensures Upper(c) == ' ' <==> c == ' '
    ensures IsLetter(Upper(c)) == IsLetter(c) && IsDigit(Upper(c)) == IsDigit(c)
    ensures !('a' <= c <= 'z') ==> Upper(c) == c
  {
  }

  /** Whether the word around position `i` of `s` has had a letter before
      `i`, the first word having had one already when `seen` holds. */
  function LetterSeen(s: string, i: int, seen: bool): bool
    requires 0 <= i <= |s|
  {
    if i == 0 then seen else Next(s[i - 1], LetterSeen(s, i - 1, seen))
  }

  /** Dropping the first character moves the positions down by one. */
  lemma {:induction false} LetterSeenTail(s: string, j: int, seen: bool)
    requires 0 <= j < |s|
    ensures LetterSeen(s[1..], j, Next(s[0], seen)) == LetterSeen(s, j + 1, seen)
  {
    if j > 0 {
      LetterSeenTail(s, j - 1, seen);
      assert s[1..][j - 1] == s[j];
    }
  }

  lemma {:induction false} TitleFromLength(s: string, seen: bool)
    ensures |TitleFrom(s, seen)| == |s|
    decreases |s|
  {
    if s != [] {
      TitleFromLength(s[1..], Next(s[0], seen));
    }
  }

  lemma {:induction false} TitleFromAt(s: string, seen: bool, i: int)
    requires 0 <= i < |s|
    ensures |TitleFrom(s, seen)| == |s|
    ensures TitleFrom(s, seen)[i] == if IsLetter(s[i]) && !LetterSeen(s, i, seen) then Upper(s[i]) else s[i]
    decreases |s|
  {
    TitleFromLength(s, seen);
    if i > 0 {
      TitleFromAt(s[1..], Next(s[0], seen), i - 1);
      LetterSeenTail(s, i - 1, seen);
      assert s[1..][i - 1] == s[i];
    }
  }

  /** `Title` upper-cases exactly the letters that no earlier letter of
      their word precedes, and keeps every other character. */
  lemma TitleSpec(s: string)
    ensures |Title(s)| == |s|
    ensures forall i :: 0 <= i < |s| ==>
      Title(s)[i] == if IsLetter(s[i]) && !LetterSeen(s, i, false) then Upper(s[i]) else s[i]
  {
    TitleFromLength(s, false);
    forall i | 0 <= i < |s|
      ensures Title(s)[i] == if IsLetter(s[i]) && !LetterSeen(s, i, false) then Upper(s[i]) else s[i]
    {
      TitleFromAt(s, false, i);
    }
  }

  lemma {:induction false} TitleFromCapitalises(s: string, seen: bool)
    ensures CapitalisedFrom(TitleFrom(s, seen), seen)
    decreases |s|
  {
    if s != [] {
      var t := TitleFrom(s, seen);
      UpperIdempotent(s[0]);
      assert t[1..] == TitleFrom(s[1..], Next(s[0], seen));
      assert Next(t[0], seen) == Next(s[0], seen);
      TitleFromCapitalises(s[1..], Next(s[0], seen));
    }
  }

  /** Every word of a `Title` result begins with a capital. */
  lemma TitleCapitalises(s: string)
    ensures WordsCapitalised(Title(s))
  {
    TitleFromCapitalises(s, false);
  }

  /** `Title` neither adds nor removes a character that is not a letter. */
  lemma TitleKeepsNonLetters(s: string, c: char)
    requires !IsLetter(c)
    ensures c in Title(s) <==> c in s
  {
    var t := Title(s);
    TitleSpec(s);
    if c in t {
      var i :| 0 <= i < |t| && t[i] == c;
      UpperIdempotent(s[i]);
      assert s[i] == c;
    }
    if c in s {
      var i :| 0 <= i < |s| && s[i] == c;
      assert t[i] == c;
    }
  }

  lemma {:induction false} TitleFromFixed(s: string, seen: bool)
    requires CapitalisedFrom(s, seen)
    ensures TitleFrom(s, seen) == s
    decreases |s|
  {
    if s != [] {
      TitleFromFixed(s[1..], Next(s[0], seen));
      assert s == [s[0]] + s[1..];
    }
  }

  /** Inside a word that has had a letter, letters and digits are kept. */
  lemma {:induction false} TitleFromInWord(s: string)
    requires forall i :: 0 <= i < |s| ==> IsLetter(s[i]) || IsDigit(s[i])
    ensures TitleFrom(s, true) == s
    decreases |s|
  {
    if s != [] {
      TitleFromInWord(s[1..]);
      assert s == [s[0]] + s[1..];
    }
  }

  lemma {:induction false} InWordCapitalised(s: string)
    requires forall i :: 0 <= i < |s| ==> IsLetter(s[i]) || IsDigit(s[i])
    ensures CapitalisedFrom(s, true)
    decreases |s|
  {
    if s != [] {
      InWordCapitalised(s[1..]);
    }
  }

  /** A word of letters and digits that begins with an upper-case letter is
      capitalised. */
  lemma CapitalisedWord(w: string)
    requires |w| > 0 && IsLetter(w[0]) && Upper(w[0]) == w[0]
    requires forall i :: 1 <= i < |w| ==> IsLetter(w[i]) || IsDigit(w[i])
    ensures WordsCapitalised(w)
  {
    InWordCapitalised(w[1..]);
  }

  /** A word of letters and digits that begins with a letter: only that
      letter is upper-cased. */
  lemma TitleWord(w: string)
    requires |w| > 0 && IsLetter(w[0])
    requires forall i :: 1 <= i < |w| ==> IsLetter(w[i]) || IsDigit(w[i])
    ensures Title(w) == [Upper(w[0])] + w[1..]
  {
    TitleFromInWord(w[1..]);
  }

  /** A string whose words already begin with capitals is its own title
      form. */
  lemma TitleFixed(s: string)
    requires WordsCapitalised(s)
    ensures Title(s) == s
  {
    TitleFromFixed(s, false);
  }

  /** Knowing that the word has had a letter only relaxes the
      requirement. */
  lemma {:induction false} CapitalisedFromMonotone(s: string, seen: bool)
    requires CapitalisedFrom(s, false)
    ensures CapitalisedFrom(s, seen)
    decreases |s|
  {
    if s != [] && seen && !IsLetter(s[0]) {
      if IsDigit(s[0]) {
        CapitalisedFromMonotone(s[1..], true);
      }
    }
  }

  /** Removing spaces keeps every word beginning with a capital: joining
      two words only turns the first letter of the second into a letter
      inside a word. */
  lemma {:induction false} RemoveSpacesKeepsCapitals(t: string, seen: bool)
    requires CapitalisedFrom(t, seen)
    ensures CapitalisedFrom(RemoveAll(t, ' '), seen)
    decreases |t|
  {
    if t != [] {
      var rest := t[1..];
      RemoveSpacesKeepsCapitals(rest, Next(t[0], seen));
      if t[0] == ' ' {
        CapitalisedFromMonotone(RemoveAll(rest, ' '), seen);
      } else {
        var r := RemoveAll(rest, ' ');
        assert RemoveAll(t, ' ') == [t[0]] + r;
        assert ([t[0]] + r)[1..] == r;
      }
    }
  }

  /** Every word of a `toUpperCamelCase` result begins with a capital; in
      particular a non-empty result never starts with a lower-case letter. */
  lemma CamelCapitalised(s: string)
    ensures WordsCapitalised(ToUpperCamelCase(s))
  {
    var t := Title(ReplaceAll(s, '_', ' '));
    TitleCapitalises(ReplaceAll(s, '_', ' '));
    RemoveSpacesKeepsCapitals(t, false);
  }

  /** Normalised identifiers are fixed points of the normalisation. */
  lemma NormalizedIsFixed(s: string)
    requires IsNormalized(s)
    ensures ServiceName(s) == s
  {
    UpToWithoutSep(s, '.');
    ReplaceAllSplit(s, [], '_', ' ');
    TitleFixed(s);
  }

  /** `serviceName` (and so `fieldName`) is idempotent. */
  lemma ServiceNameIdempotent(x: string)
    ensures ServiceName(ServiceName(x)) == ServiceName(x)
  {
    CamelCapitalised(UpTo(x, '.'));
    NormalizedIsFixed(ServiceName(x));
  }

  lemma {:induction false} TitleFromSplit(a: string, b: string, seen: bool)
    ensures TitleFrom(a + [' '] + b, seen) == TitleFrom(a, seen) + [' '] + TitleFrom(b, false)
    decreases |a|
  {
    var s := a + [' '] + b;
    if a == [] {
      assert s[1..] == b;
    } else {
      assert s[1..] == a[1..] + [' '] + b;
      TitleFromSplit(a[1..], b, Next(a[0], seen));
    }
  }

  /** A space splits the title form: the words on either side are
      title-cased on their own. */
  lemma TitleSplit(a: string, b: string)
    ensures Title(a + [' '] + b) == Title(a) + [' '] + Title(b)
  {
    TitleFromSplit(a, b, false);
  }

  lemma ReplaceAllConcat(a: string, b: string, from: char, to: char)
    ensures ReplaceAll(a + b, from, to) == ReplaceAll(a, from, to) + ReplaceAll(b, from, to)
  {
    var s := a + b;
    assert forall i :: |a| <= i < |s| ==> s[i] == b[i - |a|];
  }

  lemma {:induction false} UpToSplit(a: string, b: string, sep: char)
    requires sep !in a
    ensures UpTo(a + [sep] + b, sep) == a
  {
    if a != [] {
      UpToSplit(a[1..], b, sep);
      assert (a + [sep] + b)[1..] == a[1..] + [sep] + b;
    }
  }

  /** Only the text before the first dot takes part in the name. */
  lemma ServiceNameDropsQualifier(a: string, b: string)
    requires '.' !in a
    ensures ServiceName(a + ['.'] + b) == ServiceName(a)
  {
    UpToSplit(a, b, '.');
    UpToWithoutSep(a, '.');
  }

  /** A single word is only capitalised. */
  lemma CamelWord(w: string)
    requires '_' !in w && ' ' !in w
    ensures ToUpperCamelCase(w) == Title(w)
  {
    ReplaceAllSplit(w, [], '_', ' ');
    TitleKeepsNonLetters(w, ' ');
  }

  /** `toUpperCamelCase` works word by word: an underscore or a space
      between a first word and the rest splits the result there, so every
      word is capitalised and the words are concatenated in order. */
  lemma CamelSplit(a: string, sep: char, b: string)
    requires sep == '_' || sep == ' '
    requires '_' !in a && ' ' !in a
    ensures ToUpperCamelCase(a + [sep] + b) == ToUpperCamelCase(a) + ToUpperCamelCase(b)
  {
    var b' := ReplaceAll(b, '_', ' ');
    var spaced := ReplaceAll(a + [sep] + b, '_', ' ');
    assert spaced == a + [' '] + b' by {
      ReplaceAllConcat(a + [sep], b, '_', ' ');
      ReplaceAllConcat(a, [sep], '_', ' ');
      ReplaceAllSplit(a, [], '_', ' ');
    }
    var ta, tb := Title(a), Title(b');
    assert Title(spaced) == ta + [' '] + tb by {
      TitleSplit(a, b');
    }
    assert ' ' !in ta by {
      TitleKeepsNonLetters(a, ' ');
    }
    RemoveAllSplit(ta, tb, ' ');
    CamelWord(a);
  }

  /** The service name of underscore-separated words: the first word
      capitalised, followed by the name of the rest. */
  lemma ServiceNameWordwise(a: string, b: string)
    requires '.' !in a && '_' !in a && ' ' !in a && '.' !in b
    ensures ServiceName(a + ['_'] + b) == Title(a) + ServiceName(b)
  {
    var s := a + ['_'] + b;
    assert '.' !in s;
    UpToWithoutSep(s, '.');
    UpToWithoutSep(b, '.');
    CamelSplit(a, '_', b);
    CamelWord(a);
  }

  /** Two underscore-separated words: each capitalised, then joined. */
  lemma ServiceNameTwoWords(a: string, b: string)
    requires '.' !in a && '_' !in a && ' ' !in a
    requires '.' !in b && '_' !in b && ' ' !in b
    ensures ServiceName(a + ['_'] + b) == Title(a) + Title(b)
  {
    ServiceNameWordwise(a, b);
    ServiceNameOfWord(b);
  }

  /** Example of the naming: "my_service" becomes "MyService". */
  lemma ServiceNameUnderscoreExample()
    ensures ServiceName("my_service") == "MyService"
  {
    var a, b := "my", "service";
    assert "my_service" == a + ['_'] + b;
    assert '.' !in a && '_' !in a && ' ' !in a;
    assert '.' !in b && '_' !in b && ' ' !in b;
    TitleWord(a);
    TitleWord(b);
    assert Title(a) + Title(b) == "MyService";
    ServiceNameTwoWords(a, b);
  }

  /** Example of the naming: the first letter of a word that begins with
      digits is upper-cased, so "get_2fa" becomes "Get2Fa". */
  lemma ServiceNameDigitExample()
    ensures ServiceName("get_2fa") == "Get2Fa"
  {
    var a, b := "get", "2fa";
    assert "get_2fa" == a + ['_'] + b;
    assert '.' !in a && '_' !in a && ' ' !in a;
    assert '.' !in b && '_' !in b && ' ' !in b;
    TitleWord(a);
    assert b[1..] == "fa";
    TitleWord("fa");
    assert Title(a) + Title(b) == "Get2Fa";
    ServiceNameTwoWords(a, b);
  }

  /** Example of the naming: a digit does not end a word, so the letter
      after it is kept and "v1beta" becomes "V1beta". */
  lemma ServiceNameMidDigitExample()
    ensures ServiceName("v1beta") == "V1beta"
  {
    var w := "v1beta";
    assert '.' !in w && '_' !in w && ' ' !in w;
    TitleWord(w);
    assert Title(w) == "V1beta";
    ServiceNameOfWord(w);
  }

  /** The name of a single word is the word capitalised. */
  lemma ServiceNameOfWord(w: string)
    requires '.' !in w && '_' !in w && ' ' !in w
    ensures ServiceName(w) == Title(w)
  {
    UpToWithoutSep(w, '.');
    CamelWord(w);
  }

  /** Example of the naming: "foo.Bar" becomes "Foo". */
  lemma ServiceNameDottedExample()
    ensures ServiceName("foo.Bar") == "Foo"
  {
    var a, b := "foo", "Bar";
    assert "foo.Bar" == a + ['.'] + b;
    assert '.' !in a && '_' !in a && ' ' !in a;
    TitleWord(a);
    assert Title(a) == "Foo";
    ServiceNameDropsQualifier(a, b);
    ServiceNameOfWord(a);
  }

  /** Example of the naming: the empty identifier stays empty. */
  lemma ServiceNameEmptyExample()
    ensures ServiceName("") == ""
  {
  }

  /** `parametersName` applied to three dot-separated segments. */
  lemma ParametersNameSegments(a: string, b: string, c: string)
    requires '.' !in a && '.' !in b && '.' !in c
    ensures ParametersName(a + ['.'] + b + ['.'] + c) == a + ['_'] + b + ['_'] + c
  {
    ReplaceAllSplit(c, [], '.', '_');
    ReplaceAllSplit(b, c, '.', '_');
    assert a + ['.'] + b + ['.'] + c == a + ['.'] + (b + ['.'] + c);
    ReplaceAllSplit(a, b + ['.'] + c, '.', '_');
  }

  lemma ParametersNameExample()
    ensures ParametersName("google.protobuf.Empty") == "google_protobuf_Empty"
  {
    assert "google.protobuf.Empty" == "google" + ['.'] + "protobuf" + ['.'] + "Empty";
    assert "google_protobuf_Empty" == "google" + ['_'] + "protobuf" + ['_'] + "Empty";
    ParametersNameSegments("google", "protobuf", "Empty");
  }
}
