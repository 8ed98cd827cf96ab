/** `to_title_case`: split a sentence on single spaces, upper-case the first
    character of every non-empty segment, and join the segments back with
    single spaces. Case mapping is modelled for ASCII letters only. */
module TitleCase {

  /** Python's `str.upper` on one character, restricted to ASCII: a-z become
      A-Z, every other character is left as it is. */
  function Upper(c: char): (u: char)
    ensures u == ' ' <==> c == ' '
    ensures 'a' <= c <= 'z' ==> 'A' <= u <= 'Z'
  {
    if 'a' <= c <= 'z' then (c as int - 32) as char else c
  }

  /** Upper-casing twice is upper-casing once. */
  lemma UpperIdempotent(c: char)
    ensures Upper(Upper(c)) == Upper(c)
  {
  }

  /** Python's `s.split(" ")`: the segments between single spaces, including
      empty ones; there is always one more segment than there are spaces. */
  function Split(s: string): (words: seq<string>)
    ensures |words| >= 1
    ensures forall k :: 0 <= k < |words| ==> ' ' !in words[k]
  {
    if |s| == 0 then [""]
    else if s[0] == ' ' then [""] + Split(s[1..])
    else
      var rest := Split(s[1..]);
      [[s[0]] + rest[0]] + rest[1..]
  }

  /** Python's `" ".join(words)`. */
  function Join(words: seq<string>): string
  {
    if |words| == 0 then ""
    else if |words| == 1 then words[0]
    else words[0] + " " + Join(words[1..])
  }

  /** The text that follows the first word when `rest` are the later words. */
  function JoinTail(rest: seq<string>): string
  {
    if rest == [] then "" else " " + Join(rest)
  }

  lemma JoinCons(w: string, rest: seq<string>)
    ensures Join([w] + rest) == w + JoinTail(rest)
  {
  }

  /** Splitting then joining gives back the sentence. */
  lemma {:induction false} JoinSplit(s: string)
    ensures Join(Split(s)) == s
  {
    if |s| == 0 {
    } else if s[0] == ' ' {
      JoinSplit(s[1..]);
      JoinCons("", Split(s[1..]));
      assert s == [' '] + s[1..];
    } else {
      var rest := Split(s[1..]);
      JoinSplit(s[1..]);
      assert rest == [rest[0]] + rest[1..];
      JoinCons(rest[0], rest[1..]);
      JoinCons([s[0]] + rest[0], rest[1..]);
      assert s == [s[0]] + s[1..];
    }
  }

  /** Joining words that contain no space, then splitting, gives back the words. */
  lemma {:induction false} SplitJoin(words: seq<string>)
    requires |words| >= 1
    requires forall k :: 0 <= k < |words| ==> ' ' !in words[k]
    ensures Split(Join(words)) == words
    decreases |words|, |words[0]| + 1
  {
    JoinCons(words[0], words[1..]);
    assert words == [words[0]] + words[1..];
    SplitWordThenTail(words[0], words[1..]);
  }

  /** Splitting a space-free word followed by the joined later words. */
  lemma {:induction false} SplitWordThenTail(w: string, rest: seq<string>)
    requires ' ' !in w
    requires forall k :: 0 <= k < |rest| ==> ' ' !in rest[k]
    ensures Split(w + JoinTail(rest)) == [w] + rest
    decreases |rest| + 1, |w|
  {
    if |w| == 0 {
      if rest == [] {
      } else {
        assert w + JoinTail(rest) == [' '] + Join(rest);
        assert ([' '] + Join(rest))[1..] == Join(rest);
        SplitJoin(rest);
      }
    } else {
      var s := w + JoinTail(rest);
      SplitWordThenTail(w[1..], rest);
      assert s[1..] == w[1..] + JoinTail(rest);
      assert s[0] == w[0];
      assert [w[0]] + w[1..] == w;
    }
  }

  /** Upper-cases the first character of a word, leaving the rest unchanged. */
  function Capitalize(w: string): (c: string)
    ensures |c| == |w|
    ensures ' ' !in w ==> ' ' !in c
  {
    if w == [] then [] else [Upper(w[0])] + w[1..]
  }

  /** The segments of `to_title_case`'s result. */
  function CapitalizeAll(words: seq<string>): (r: seq<string>)
    ensures |r| == |words|
    ensures forall k :: 0 <= k < |words| ==> r[k] == Capitalize(words[k])
  {
    seq(|words|, k requires 0 <= k < |words| => Capitalize(words[k]))
  }

  /** What `to_title_case` returns. */
  function TitleCase(s: string): string
  {
    Join(CapitalizeAll(Split(s)))
  }

  /** Reference definition, character by character: a character is
      upper-cased exactly when it opens the sentence or follows a space. */
  function TitleFrom(s: string, atStart: bool): (r: string)
    ensures |r| == |s|
  {
    if s == [] then []
    else [if atStart then Upper(s[0]) else s[0]] + TitleFrom(s[1..], s[0] == ' ')
  }

  lemma {:induction false} TitleFromAt(s: string, atStart: bool, i: nat)
    requires i < |s|
    ensures TitleFrom(s, atStart)[i] ==
      if (if i == 0 then atStart else s[i - 1] == ' ') then Upper(s[i]) else s[i]
  {
    if i > 0 {
      TitleFromAt(s[1..], s[0] == ' ', i - 1);
    }
  }

  /** Joining the words of `s`, all but the first capitalized, is the
      reference with the first character not at a word start. */
  lemma {:induction false} JoinLaterCapitalized(s: string)
    ensures Join([Split(s)[0]] + CapitalizeAll(Split(s)[1..])) == TitleFrom(s, false)
    decreases |s|, 0
  {
    if |s| == 0 {
    } else if s[0] == ' ' {
      var t := s[1..];
      assert Split(s) == [""] + Split(t);
      assert Split(s)[1..] == Split(t);
      JoinCons("", CapitalizeAll(Split(t)));
      TitleCaseIsReference(t);
    } else {
      var t := s[1..];
      var rt := Split(t);
      assert Split(s) == [[s[0]] + rt[0]] + rt[1..];
      assert Split(s)[1..] == rt[1..];
      JoinCons([s[0]] + rt[0], CapitalizeAll(rt[1..]));
      JoinCons(rt[0], CapitalizeAll(rt[1..]));
      JoinLaterCapitalized(t);
    }
  }

  /** `to_title_case` agrees with the character-by-character reference. */
  lemma {:induction false} TitleCaseIsReference(s: string)
    ensures TitleCase(s) == TitleFrom(s, true)
    decreases |s|, 1
  {
    var words := Split(s);
    var later := CapitalizeAll(words[1..]);
    assert CapitalizeAll(words) == [Capitalize(words[0])] + later;
    JoinCons(Capitalize(words[0]), later);
    JoinCons(words[0], later);
    if |s| > 0 {
      JoinLaterCapitalized(s);
      if s[0] == ' ' {
        // the first word is empty, and capitalizing it changes nothing
        assert words[0] == [];
      } else {
        assert words[0][0] == s[0] by {
          assert words[0] == [s[0]] + Split(s[1..])[0];
        }
        var tail := JoinTail(later);
        assert TitleFrom(s, true) == [Upper(s[0])] + TitleFrom(s, false)[1..];
        assert (words[0] + tail)[1..] == words[0][1..] + tail;
      }
    }
  }

  /** The result has as many characters as the sentence. */
  lemma TitleCaseLength(s: string)
    ensures |TitleCase(s)| == |s|
  {
    TitleCaseIsReference(s);
  }

  /** Each character is upper-cased exactly when it starts the sentence or
      follows a space; every other character is copied. */
  lemma TitleCaseAt(s: string, i: nat)
    requires i < |s|
    ensures |TitleCase(s)| == |s|
    ensures TitleCase(s)[i] == if i == 0 || s[i - 1] == ' ' then Upper(s[i]) else s[i]
  {
    TitleCaseIsReference(s);
    TitleFromAt(s, true, i);
  }

  /** Spaces stay exactly where they were. */
  lemma TitleCaseSpaces(s: string)
    ensures |TitleCase(s)| == |s|
    ensures forall i :: 0 <= i < |s| ==> (TitleCase(s)[i] == ' ' <==> s[i] == ' ')
  {
    TitleCaseLength(s);
    forall i | 0 <= i < |s|
      ensures TitleCase(s)[i] == ' ' <==> s[i] == ' '
    {
      TitleCaseAt(s, i);
    }
  }

  /** The result splits into the sentence's segments, each capitalized: the
      same number of segments, empty segments kept empty. */
  lemma TitleCaseSegments(s: string)
    ensures Split(TitleCase(s)) == CapitalizeAll(Split(s))
    ensures |Split(TitleCase(s))| == |Split(s)|
    ensures forall k :: 0 <= k < |Split(s)| && Split(s)[k] == "" ==> Split(TitleCase(s))[k] == ""
  {
    SplitJoin(CapitalizeAll(Split(s)));
  }

  lemma {:induction false} TitleFromIdempotent(s: string, atStart: bool)
    ensures TitleFrom(TitleFrom(s, atStart), atStart) == TitleFrom(s, atStart)
  {
    if s != [] {
      TitleFromIdempotent(s[1..], s[0] == ' ');
      UpperIdempotent(s[0]);
      var t := TitleFrom(s, atStart);
      assert t[0] == ' ' <==> s[0] == ' ';
      assert t[1..] == TitleFrom(s[1..], s[0] == ' ');
    }
  }

  /** Title-casing twice is title-casing once. */
  lemma TitleCaseIdempotent(s: string)
    ensures TitleCase(TitleCase(s)) == TitleCase(s)
  {
    TitleCaseIsReference(s);
    TitleCaseIsReference(TitleCase(s));
    TitleFromIdempotent(s, true);
  }

  /** The empty sentence becomes the empty string. */
  lemma TitleCaseEmpty()
    ensures TitleCase("") == ""
  {
  }

  /** `to_title_case`, with its loop over the segments. */
  method ToTitleCase(sentence: string) returns (r: string)
    ensures r == TitleCase(sentence)
    ensures |r| == |sentence|
    ensures forall i :: 0 <= i < |sentence| ==>
      r[i] == if i == 0 || sentence[i - 1] == ' ' then Upper(sentence[i]) else sentence[i]
  {
    var words := Split(sentence);
    var resultWords: seq<string> := [];
    for i := 0 to |words|
      invariant |resultWords| == i
      invariant forall k :: 0 <= k < i ==> resultWords[k] == Capitalize(words[k])
    {
      var w := words[i];
      if w == [] {
        resultWords := resultWords + [""];
      } else {
        resultWords := resultWords + [[Upper(w[0])] + w[1..]];
      }
    }
    assert resultWords == CapitalizeAll(words);
    r := Join(resultWords);
    TitleCaseLength(sentence);
    forall i | 0 <= i < |sentence|
      ensures r[i] == if i == 0 || sentence[i - 1] == ' ' then Upper(sentence[i]) else sentence[i]
    {
      TitleCaseAt(sentence, i);
    }
  }
}
