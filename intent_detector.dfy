/** The keyword classifier of src/orchestrator/intent_detector.py: the fallback intent detection
    and search-term extraction used when the language model cannot be reached, the reading of the
    model's one-word reply, and the try/fallback around both. The model's answer is an input. */
module Intents {
  import opened Wrappers

  datatype IntentType = Faq | ProductSearch | General
  {
    function Value(): string
    {
      match this
      case Faq => "faq"
      case ProductSearch => "product_search"
      case General => "general"
    }
  }

  /** Python's `str.lower` and `str.upper` on ASCII letters; other characters are kept. */
  function LowerChar(c: char): char
  {
    if 'A' <= c <= 'Z' then (c as int + 32) as char else c
  }

  function UpperChar(c: char): char
  {
    if 'a' <= c <= 'z' then (c as int - 32) as char else c
  }

  function Lower(s: string): (r: string)
    ensures |r| == |s| && forall i :: 0 <= i < |s| ==> r[i] == LowerChar(s[i])
  {
    seq(|s|, i requires 0 <= i < |s| => LowerChar(s[i]))
  }

  function Upper(s: string): (r: string)
    ensures |r| == |s| && forall i :: 0 <= i < |s| ==> r[i] == UpperChar(s[i])
  {
    seq(|s|, i requires 0 <= i < |s| => UpperChar(s[i]))
  }

  /** `w in s` for strings, as a left-to-right scan. */
  predicate Occurs(w: string, s: string)
    ensures Occurs(w, s) ==> |w| <= |s|
    ensures w == [] ==> Occurs(w, s)
    decreases |s|
  {
    |w| <= |s| && (s[..|w|] == w || Occurs(w, s[1..]))
  }

  /** `w` is the slice of `s` that starts at `i`. */
  ghost predicate OccursAt(w: string, s: string, i: int)
  {
    0 <= i <= |s| - |w| && s[i..i + |w|] == w
  }

  /** The reference meaning of `w in s`: `w` is the slice of `s` at some position. */
  ghost predicate IsSubstring(w: string, s: string)
  {
    exists i :: OccursAt(w, s, i)
  }

  lemma {:induction false} OccursIsSubstring(w: string, s: string)
    ensures Occurs(w, s) <==> IsSubstring(w, s)
    decreases |s|
  {
    if |w| <= |s| {
      if s[..|w|] == w {
        assert OccursAt(w, s, 0);
      } else {
        OccursIsSubstring(w, s[1..]);
        if IsSubstring(w, s) {
          var i :| OccursAt(w, s, i);
          assert i > 0;
          OccursInTail(w, s, i);
        }
        if IsSubstring(w, s[1..]) {
          var i :| OccursAt(w, s[1..], i);
          OccursAfterHead(w, s, i);
        }
      }
    } else {
      assert forall i :: !OccursAt(w, s, i);
    }
  }

  lemma OccursInTail(w: string, s: string, i: int)
    requires OccursAt(w, s, i) && i > 0
    ensures OccursAt(w, s[1..], i - 1)
  {
    assert s[1..][i - 1..i - 1 + |w|] == s[i..i + |w|];
  }

  lemma OccursAfterHead(w: string, s: string, i: int)
    requires |s| > 0 && OccursAt(w, s[1..], i)
    ensures OccursAt(w, s, i + 1)
  {
    assert s[i + 1..i + 1 + |w|] == s[1..][i..i + |w|];
  }

  /** `any(word in s for word in words)`. */
  function AnyOccurs(words: seq<string>, s: string): (r: bool)
    ensures r <==> exists i :: 0 <= i < |words| && IsSubstring(words[i], s)
  {
    if words == [] then false
    else
      OccursIsSubstring(words[0], s);
      var rest := AnyOccurs(words[1..], s);
      assert rest <==> exists i :: 1 <= i < |words| && IsSubstring(words[i], s) by {
        if rest {
          var i :| 0 <= i < |words| - 1 && IsSubstring(words[1..][i], s);
          assert words[i + 1] == words[1..][i];
        }
        if exists i :: 1 <= i < |words| && IsSubstring(words[i], s) {
          var i :| 1 <= i < |words| && IsSubstring(words[i], s);
          assert words[1..][i - 1] == words[i];
        }
      }
      Occurs(words[0], s) || rest
  }

  const ProductWords: seq<string> :=
    ["produto", "comprar", "perfume", "celular", "lattafa", "armaf", "liste", "mostrar"]
  const FaqWords: seq<string> := ["horario", "entrega", "pagamento", "como", "quando", "onde"]
  const Brands: seq<string> :=
    ["lattafa", "armaf", "xiaomi", "apple", "samsung", "afnan", "chanel", "gucci", "dior"]

  /** Some keyword of `words` is a substring of `s`. */
  ghost predicate HasKeyword(words: seq<string>, s: string)
  {
    exists i :: 0 <= i < |words| && IsSubstring(words[i], s)
  }

  /** `_simple_detection`: a product keyword wins over a FAQ keyword; with neither the message is
      general. Keywords are looked for in the lower-cased message. */
  function SimpleDetection(message: string): (r: IntentType)
    ensures r == ProductSearch <==> HasKeyword(ProductWords, Lower(message))
    ensures r == Faq <==> !HasKeyword(ProductWords, Lower(message)) && HasKeyword(FaqWords, Lower(message))
    ensures r == General <==> !HasKeyword(ProductWords, Lower(message)) && !HasKeyword(FaqWords, Lower(message))
  {
    var m := Lower(message);
    if AnyOccurs(ProductWords, m) then ProductSearch
    else if AnyOccurs(FaqWords, m) then Faq
    else General
  }

  /** The loop over the brands in `_simple_extract`: the first one in list order that occurs. */
  function FirstOccurring(words: seq<string>, s: string): (r: Option<string>)
    ensures r.None? <==> !HasKeyword(words, s)
    ensures r.Some? ==> exists i :: 0 <= i < |words| && words[i] == r.value && IsSubstring(words[i], s)
                                    && forall j :: 0 <= j < i ==> !IsSubstring(words[j], s)
  {
    if words == [] then None
    else
      OccursIsSubstring(words[0], s);
      if Occurs(words[0], s) then Some(words[0])
      else
        var r := FirstOccurring(words[1..], s);
        FirstOccurringStep(words, s, r);
        r
  }

  /** When the first word does not occur, the search goes on in the rest of the list. */
  lemma FirstOccurringStep(words: seq<string>, s: string, r: Option<string>)
    requires words != [] && !IsSubstring(words[0], s)
    requires r.None? <==> !HasKeyword(words[1..], s)
    requires r.Some? ==> exists i :: 0 <= i < |words| - 1 && words[1..][i] == r.value
                                     && IsSubstring(words[1..][i], s)
                                     && forall j :: 0 <= j < i ==> !IsSubstring(words[1..][j], s)
    ensures r.None? <==> !HasKeyword(words, s)
    ensures r.Some? ==> exists i :: 0 <= i < |words| && words[i] == r.value && IsSubstring(words[i], s)
                                    && forall j :: 0 <= j < i ==> !IsSubstring(words[j], s)
  {
    if r.Some? {
      var i :| 0 <= i < |words| - 1 && words[1..][i] == r.value && IsSubstring(words[1..][i], s)
               && forall j :: 0 <= j < i ==> !IsSubstring(words[1..][j], s);
      assert words[i + 1] == r.value && IsSubstring(words[i + 1], s);
      forall j | 0 <= j < i + 1 ensures !IsSubstring(words[j], s) {
        if j > 0 {
          assert words[j] == words[1..][j - 1];
        }
      }
      assert HasKeyword(words, s);
    } else {
      forall i | 0 <= i < |words| ensures !IsSubstring(words[i], s) {
        if i > 0 {
          assert words[i] == words[1..][i - 1];
        }
      }
    }
  }

  /** The terms `_simple_extract` can answer with. */
  const ExtractTerms: seq<string> := Brands + ["perfume", "celular"]

  /** `_simple_extract`: the first brand of the list found in the lower-cased message, whatever its
      place in the message; with no brand, "perfume" if it occurs, else "celular" if it occurs,
      else "perfume". The answer is always one of a fixed set of non-empty terms. */
  function SimpleExtract(message: string): (r: string)
    ensures r in ExtractTerms && |r| > 0
    ensures HasKeyword(Brands, Lower(message)) ==>
              exists i :: 0 <= i < |Brands| && Brands[i] == r && IsSubstring(r, Lower(message))
                          && forall j :: 0 <= j < i ==> !IsSubstring(Brands[j], Lower(message))
    ensures !HasKeyword(Brands, Lower(message)) ==>
              r == if !IsSubstring("perfume", Lower(message)) && IsSubstring("celular", Lower(message))
                   then "celular" else "perfume"
  {
    var m := Lower(message);
    match FirstOccurring(Brands, m)
    case Some(brand) => brand
    case None =>
      OccursIsSubstring("perfume", m);
      OccursIsSubstring("celular", m);
      if Occurs("perfume", m) then "perfume"
      else if Occurs("celular", m) then "celular"
      else "perfume"
  }

  /** Python's `str.isspace` characters, which `strip()` removes at both ends. */
  predicate IsSpace(c: char)
  {
    || c == ' ' || '\t' <= c <= '\r' || '\U{1c}' <= c <= '\U{1f}' || c == '\U{85}' || c == '\U{a0}'
    || c == '\U{1680}' || '\U{2000}' <= c <= '\U{200a}' || c == '\U{2028}' || c == '\U{2029}'
    || c == '\U{202f}' || c == '\U{205f}' || c == '\U{3000}'
  }

  /** The number of white-space characters `s` starts with. */
  function LeadingSpaces(s: string): (k: nat)
    ensures k <= |s| && forall i :: 0 <= i < k ==> IsSpace(s[i])
    ensures k < |s| ==> !IsSpace(s[k])
  {
    if s != [] && IsSpace(s[0]) then
      var k := LeadingSpaces(s[1..]);
      assert forall i :: 1 <= i < k + 1 ==> s[i] == s[1..][i - 1];
      k + 1
    else 0
  }

  /** The length `s` has once its trailing white space is cut off. */
  function TrailingStart(s: string): (k: nat)
    ensures k <= |s| && forall i :: k <= i < |s| ==> IsSpace(s[i])
    ensures k > 0 ==> !IsSpace(s[k - 1])
  {
    if s != [] && IsSpace(s[|s| - 1]) then
      var k := TrailingStart(s[..|s| - 1]);
      assert forall i :: k <= i < |s| - 1 ==> s[i] == s[..|s| - 1][i];
      k
    else |s|
  }

  /** `s.strip()`: the longest slice with no white space at either end, that is, `s` with only
      white space removed before and after it. */
  function Strip(s: string): (r: string)
    ensures |r| <= |s|
    ensures r != [] ==> !IsSpace(r[0]) && !IsSpace(r[|r| - 1])
    ensures exists a, b :: 0 <= a <= b <= |s| && r == s[a..b]
                           && (forall i :: 0 <= i < a ==> IsSpace(s[i]))
                           && (forall i :: b <= i < |s| ==> IsSpace(s[i]))
  {
    var a := LeadingSpaces(s);
    var t := s[a..];
    SuffixSpaces(s, a, t, TrailingStart(t));
    SuffixPrefix(s, a, a + TrailingStart(t));
    t[..TrailingStart(t)]
  }

  /** White space at the end of a suffix `t` of `s` is white space at the end of `s`. */
  lemma SuffixSpaces(s: string, a: nat, t: string, k: nat)
    requires a <= |s| && t == s[a..] && k <= |t|
    requires forall i :: k <= i < |t| ==> IsSpace(t[i])
    ensures forall i :: a + k <= i < |s| ==> IsSpace(s[i])
  {
    forall i | a + k <= i < |s| ensures IsSpace(s[i]) {
      assert s[i] == t[i - a];
    }
  }

  /** A prefix of a suffix is a slice. */
  lemma SuffixPrefix(s: string, a: nat, b: nat)
    requires a <= b <= |s|
    ensures s[a..][..b - a] == s[a..b]
  {
  }

  /** Lower-casing twice is lower-casing once. */
  lemma LowerIdempotent(s: string)
    ensures Lower(Lower(s)) == Lower(s)
  {
    assert forall i :: 0 <= i < |s| ==> LowerChar(LowerChar(s[i])) == LowerChar(s[i]);
  }

  /** The keyword classifier and the term extraction ignore case: a message and its lower-cased
      form get the same answers. */
  lemma KeywordsIgnoreCase(message: string)
    ensures SimpleDetection(Lower(message)) == SimpleDetection(message)
    ensures SimpleExtract(Lower(message)) == SimpleExtract(message)
  {
    LowerIdempotent(message);
  }

  /** The model's reply, or the exception the call raised (no key, no network, no content). */
  datatype Completion = Reply(text: string) | Unavailable

  /** The mapping of the model's reply in `_detect_with_openai`: the stripped, upper-cased reply is
      searched for "PRODUCT_SEARCH", then for "FAQ". Stripping never matters: the intent is
      decided by the keywords' presence anywhere in the upper-cased reply. */
  function ReplyToIntent(reply: string): (r: IntentType)
    ensures r == ProductSearch <==> IsSubstring("PRODUCT_SEARCH", Upper(reply))
    ensures r == Faq <==> !IsSubstring("PRODUCT_SEARCH", Upper(reply)) && IsSubstring("FAQ", Upper(reply))
    ensures r == General <==> !IsSubstring("PRODUCT_SEARCH", Upper(reply)) && !IsSubstring("FAQ", Upper(reply))
  {
    var answer := Upper(Strip(reply));
    OccursIsSubstring("PRODUCT_SEARCH", answer);
    OccursIsSubstring("FAQ", answer);
    StripKeepsWord("PRODUCT_SEARCH", reply);
    StripKeepsWord("FAQ", reply);
    if Occurs("PRODUCT_SEARCH", answer) then ProductSearch
    else if Occurs("FAQ", answer) then Faq
    else General
  }

  /** A non-empty word without white space occurs in the upper-cased stripped text exactly when it
      occurs in the upper-cased text. */
  lemma StripKeepsWord(w: string, s: string)
    requires |w| > 0 && forall i :: 0 <= i < |w| ==> !IsSpace(w[i])
    ensures IsSubstring(w, Upper(Strip(s))) <==> IsSubstring(w, Upper(s))
  {
    var a, b :| 0 <= a <= b <= |s| && Strip(s) == s[a..b]
                && (forall i :: 0 <= i < a ==> IsSpace(s[i]))
                && (forall i :: b <= i < |s| ==> IsSpace(s[i]));
    UpperSlice(s, a, b);
    forall i | 0 <= i < a || b <= i < |s| ensures IsSpace(UpperChar(s[i])) {
      assert IsSpace(s[i]);
    }
    TrimmedKeepsWord(w, s, a, b);
  }

  /** Upper-casing a slice is slicing the upper-cased text. */
  lemma UpperSlice(s: string, a: nat, b: nat)
    requires a <= b <= |s|
    ensures Upper(s[a..b]) == Upper(s)[a..b]
  {
    assert forall i :: 0 <= i < b - a ==> Upper(s[a..b])[i] == UpperChar(s[a + i]);
  }

  /** Cutting white space off both ends of `u` neither adds nor removes an occurrence of a
      non-empty word that has no white space. */
  lemma TrimmedKeepsWord(w: string, u: string, a: nat, b: nat)
    requires |w| > 0 && forall i :: 0 <= i < |w| ==> !IsSpace(w[i])
    requires a <= b <= |u|
    requires forall i :: 0 <= i < a ==> IsSpace(UpperChar(u[i]))
    requires forall i :: b <= i < |u| ==> IsSpace(UpperChar(u[i]))
    ensures IsSubstring(w, Upper(u)[a..b]) <==> IsSubstring(w, Upper(u))
  {
    var v := Upper(u);
    if IsSubstring(w, v[a..b]) {
      var i :| OccursAt(w, v[a..b], i);
      assert v[a + i..a + i + |w|] == v[a..b][i..i + |w|];
      assert OccursAt(w, v, a + i);
    }
    if IsSubstring(w, v) {
      var i :| OccursAt(w, v, i);
      OccursInsideTrim(w, u, a, b, i);
    }
  }

  /** An occurrence of a word without spaces in `Upper(u)` lies between the trimmed margins. */
  lemma OccursInsideTrim(w: string, u: string, a: nat, b: nat, i: int)
    requires |w| > 0 && forall i :: 0 <= i < |w| ==> !IsSpace(w[i])
    requires a <= b <= |u|
    requires forall i :: 0 <= i < a ==> IsSpace(UpperChar(u[i]))
    requires forall i :: b <= i < |u| ==> IsSpace(UpperChar(u[i]))
    requires OccursAt(w, Upper(u), i)
    ensures OccursAt(w, Upper(u)[a..b], i - a)
  {
    var v := Upper(u);
    assert v[i] == w[0];
    assert v[i + |w| - 1] == w[|w| - 1];
    assert v[a..b][i - a..i - a + |w|] == v[i..i + |w|];
  }

  /** `detect_intent`: the model's reply when it answers, the keyword classifier otherwise. */
  function DetectIntent(message: string, completion: Completion): (r: IntentType)
    ensures completion.Unavailable? ==> r == SimpleDetection(message)
    ensures completion.Reply? ==> r == ReplyToIntent(completion.text)
  {
    match completion
    case Reply(text) => ReplyToIntent(text)
    case Unavailable => SimpleDetection(message)
  }

  /** `extract_search_term`: the model's stripped, lower-cased reply when it answers, the keyword
      extraction otherwise. */
  function ExtractSearchTerm(message: string, completion: Completion): (r: string)
    ensures completion.Unavailable? ==> r == SimpleExtract(message) && r in ExtractTerms
    ensures completion.Reply? ==> r == Lower(Strip(completion.text))
  {
    match completion
    case Reply(text) => Lower(Strip(text))
    case Unavailable => SimpleExtract(message)
  }
}
