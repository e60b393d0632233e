/**
 * `POSTags` (data_pos.py): the closed vocabulary of 36 Penn Treebank
 * part-of-speech tags with their codes, and `get_tags`, which turns the
 * tagger's (word, tag) pairs into the codes of the known tags.
 *
 * The tokenizer and tagger themselves are not modelled: `get_tags` here
 * takes their output, the list of (word, tag) pairs, as its argument.
 */
module PosTags {

  /** The number of tags in the vocabulary. */
  const TagCount := 36

  /** The tag that `pos_dict` gives the code `code`, in the order the literal lists them. */
  function TagOf(code: nat): string
    requires 1 <= code <= TagCount
  {
    if code == 1 then "CC"
    else if code == 2 then "CD"
    else if code == 3 then "DT"
    else if code == 4 then "EX"
    else if code == 5 then "FW"
    else if code == 6 then "IN"
    else if code == 7 then "JJ"
    else if code == 8 then "JJR"
    else if code == 9 then "JJS"
    else if code == 10 then "LS"
    else if code == 11 then "MD"
    else if code == 12 then "NN"
    else if code == 13 then "NNS"
    else if code == 14 then "NNP"
    else if code == 15 then "NNPS"
    else if code == 16 then "PDT"
    else if code == 17 then "POS"
    else if code == 18 then "PRP"
    else if code == 19 then "PRP$"
    else if code == 20 then "RB"
    else if code == 21 then "RBR"
    else if code == 22 then "RBS"
    else if code == 23 then "RP"
    else if code == 24 then "SYM"
    else if code == 25 then "TO"
    else if code == 26 then "UH"
    else if code == 27 then "VB"
    else if code == 28 then "VBD"
    else if code == 29 then "VBG"
    else if code == 30 then "VBN"
    else if code == 31 then "VBP"
    else if code == 32 then "VBZ"
    else if code == 33 then "WDT"
    else if code == 34 then "WP"
    else if code == 35 then "WP$"
    else "WRB"
  }

  /** The first code from `code` on whose tag is `tag`, or 0 when there is none. */
  function FindCode(tag: string, code: nat): (r: nat)
    requires 1 <= code <= TagCount + 1
    ensures r == 0 || (code <= r <= TagCount && TagOf(r) == tag)
    ensures r == 0 ==> forall k :: code <= k <= TagCount ==> TagOf(k) != tag
    decreases TagCount + 1 - code
  {
    if code > TagCount then 0
    else if TagOf(code) == tag then code
    else FindCode(tag, code + 1)
  }

  /** `pos_dict`: each listed tag to its code. */
  const PosDict: map<string, nat> :=
    map t | t in (set k | 1 <= k <= TagCount :: TagOf(k)) :: FindCode(t, 1)

  /** No tag is listed twice. */
  lemma TagsDistinct()
    ensures forall a, b :: 1 <= a < b <= TagCount ==> TagOf(a) != TagOf(b)
  {
  }

  /**
   * `pos_dict` maps the listed tags onto the codes 1..36, one to one: every
   * listed tag keeps the code it is written with, and every code belongs to
   * exactly one tag.
   */
  lemma PosDictShape()
    ensures forall k :: 1 <= k <= TagCount ==> TagOf(k) in PosDict && PosDict[TagOf(k)] == k
    ensures forall t :: t in PosDict ==> 1 <= PosDict[t] <= TagCount && TagOf(PosDict[t]) == t
    ensures forall a, b :: a in PosDict && b in PosDict && PosDict[a] == PosDict[b] ==> a == b
  {
    TagsDistinct();
    forall k | 1 <= k <= TagCount ensures PosDict[TagOf(k)] == k {
      var c := FindCode(TagOf(k), 1);
      assert 1 <= c <= k;
    }
  }

  /** `dict.get(tag, 0)`. */
  function Lookup(dict: map<string, nat>, tag: string): (r: nat)
    ensures tag !in dict ==> r == 0
    ensures tag in dict ==> r == dict[tag]
    ensures r != 0 ==> tag in dict && dict[tag] == r
  {
    if tag in dict then dict[tag] else 0
  }

  /** The first comprehension of `get_tags`: one code per pair, 0 for a tag outside `dict`. */
  function Codes(dict: map<string, nat>, wordsAndTags: seq<(string, string)>): (r: seq<nat>)
    ensures |r| == |wordsAndTags|
  {
    seq(|wordsAndTags|, i requires 0 <= i < |wordsAndTags| => Lookup(dict, wordsAndTags[i].1))
  }

  /** The second comprehension of `get_tags`: the non-zero codes, in order. */
  function NonZero(codes: seq<nat>): (r: seq<nat>)
    ensures |r| <= |codes|
    ensures forall x :: x in r ==> x != 0 && x in codes
  {
    if codes == [] then []
    else if codes[0] == 0 then NonZero(codes[1..])
    else [codes[0]] + NonZero(codes[1..])
  }

  /** The tags of the pairs that `dict` knows, in their original order. */
  function Known(dict: map<string, nat>, wordsAndTags: seq<(string, string)>): (r: seq<string>)
    ensures forall i :: 0 <= i < |r| ==> r[i] in dict
  {
    if wordsAndTags == [] then []
    else if wordsAndTags[0].1 in dict then [wordsAndTags[0].1] + Known(dict, wordsAndTags[1..])
    else Known(dict, wordsAndTags[1..])
  }

  /** `get_tags` of an object whose `pos_dict` is `posDict`, given what the tagger made of the sentence. */
  function GetTagsWith(posDict: map<string, nat>, wordsAndTags: seq<(string, string)>): (r: seq<nat>)
    ensures |r| <= |wordsAndTags|
    ensures forall x :: x in r ==> x != 0 && exists t :: t in posDict && posDict[t] == x
  {
    var r := NonZero(Codes(posDict, wordsAndTags));
    forall x | x in r ensures exists t :: t in posDict && posDict[t] == x {
      var i :| 0 <= i < |wordsAndTags| && Codes(posDict, wordsAndTags)[i] == x;
      assert wordsAndTags[i].1 in posDict;
    }
    r
  }

  /** `get_tags` of a `POSTags()`, given what the tagger made of the sentence. */
  function GetTags(wordsAndTags: seq<(string, string)>): (r: seq<nat>)
    ensures |r| <= |wordsAndTags|
    ensures forall x :: x in r ==> 1 <= x <= TagCount
  {
    PosDictShape();
    GetTagsWith(PosDict, wordsAndTags)
  }

  /** The tags among the tagger's pairs that `pos_dict` knows. */
  function KnownTags(wordsAndTags: seq<(string, string)>): (r: seq<string>)
    ensures forall i :: 0 <= i < |r| ==> r[i] in PosDict
  {
    Known(PosDict, wordsAndTags)
  }

  /** With no tag coded 0, dropping the zeros drops exactly the unknown tags. */
  lemma {:induction false} EncodeKnown(dict: map<string, nat>, wordsAndTags: seq<(string, string)>)
    requires forall t :: t in dict ==> dict[t] != 0
    ensures |NonZero(Codes(dict, wordsAndTags))| == |Known(dict, wordsAndTags)|
    ensures forall i :: 0 <= i < |Known(dict, wordsAndTags)| ==>
              NonZero(Codes(dict, wordsAndTags))[i] == dict[Known(dict, wordsAndTags)[i]]
  {
    if wordsAndTags != [] {
      var rest := wordsAndTags[1..];
      assert Codes(dict, wordsAndTags) == [Lookup(dict, wordsAndTags[0].1)] + Codes(dict, rest);
      assert Codes(dict, wordsAndTags)[1..] == Codes(dict, rest);
      EncodeKnown(dict, rest);
    }
  }

  /** `get_tags` is the code of every known tag, in order: unknown tags are dropped and nothing else is. */
  lemma GetTagsCodesKnownTags(wordsAndTags: seq<(string, string)>)
    ensures |GetTags(wordsAndTags)| == |KnownTags(wordsAndTags)|
    ensures forall i :: 0 <= i < |KnownTags(wordsAndTags)| ==>
              GetTags(wordsAndTags)[i] == PosDict[KnownTags(wordsAndTags)[i]]
  {
    PosDictShape();
    EncodeKnown(PosDict, wordsAndTags);
  }

  /** Under an injective `dict`, equal encodings mean equal known tags, and conversely. */
  lemma EncodeDetermines(dict: map<string, nat>, p: seq<(string, string)>, q: seq<(string, string)>)
    requires forall t :: t in dict ==> dict[t] != 0
    requires forall a, b :: a in dict && b in dict && dict[a] == dict[b] ==> a == b
    ensures NonZero(Codes(dict, p)) == NonZero(Codes(dict, q)) <==> Known(dict, p) == Known(dict, q)
  {
    EncodeKnown(dict, p);
    EncodeKnown(dict, q);
    var kp, kq := Known(dict, p), Known(dict, q);
    if NonZero(Codes(dict, p)) == NonZero(Codes(dict, q)) {
      assert forall i :: 0 <= i < |kp| ==> kp[i] == kq[i];
    }
  }

  /**
   * Because no two tags share a code, the codes determine the known tags:
   * two tagger outputs encode alike exactly when their known tags agree.
   */
  lemma GetTagsDeterminesKnownTags(p: seq<(string, string)>, q: seq<(string, string)>)
    ensures GetTags(p) == GetTags(q) <==> KnownTags(p) == KnownTags(q)
  {
    PosDictShape();
    EncodeDetermines(PosDict, p, q);
  }

  lemma {:induction false} NonZeroAppend(a: seq<nat>, b: seq<nat>)
    ensures NonZero(a + b) == NonZero(a) + NonZero(b)
  {
    if a == [] {
      assert a + b == b;
    } else {
      assert (a + b)[1..] == a[1..] + b;
      NonZeroAppend(a[1..], b);
    }
  }

  lemma EncodeAppend(dict: map<string, nat>, p: seq<(string, string)>, q: seq<(string, string)>)
    ensures NonZero(Codes(dict, p + q)) == NonZero(Codes(dict, p)) + NonZero(Codes(dict, q))
  {
    assert Codes(dict, p + q) == Codes(dict, p) + Codes(dict, q);
    NonZeroAppend(Codes(dict, p), Codes(dict, q));
  }

  /** Encoding a concatenation encodes the two parts one after the other. */
  lemma GetTagsAppend(p: seq<(string, string)>, q: seq<(string, string)>)
    ensures GetTags(p + q) == GetTags(p) + GetTags(q)
  {
    EncodeAppend(PosDict, p, q);
  }

  lemma ExampleTagCodes()
    ensures TagOf(3) == "DT" && TagOf(12) == "NN" && TagOf(28) == "VBD"
  {
  }

  lemma ExampleLookups()
    ensures Lookup(PosDict, "DT") == 3 && Lookup(PosDict, "NN") == 12 && Lookup(PosDict, "VBD") == 28
  {
    PosDictShape();
    ExampleTagCodes();
  }

  /** Three pairs whose tags all have non-zero codes encode as those three codes. */
  lemma GetTagsWithThree(posDict: map<string, nat>, w0: string, t0: string, w1: string, t1: string,
                         w2: string, t2: string)
    requires Lookup(posDict, t0) != 0 && Lookup(posDict, t1) != 0 && Lookup(posDict, t2) != 0
    ensures GetTagsWith(posDict, [(w0, t0), (w1, t1), (w2, t2)])
            == [Lookup(posDict, t0), Lookup(posDict, t1), Lookup(posDict, t2)]
  {
    var c0, c1, c2 := Lookup(posDict, t0), Lookup(posDict, t1), Lookup(posDict, t2);
    assert Codes(posDict, [(w0, t0), (w1, t1), (w2, t2)]) == [c0, c1, c2];
    assert NonZero([c2]) == [c2];
    assert NonZero([c1, c2]) == [c1, c2];
  }

  /** The tags of "The cat sat." as a tagger gives them, and their codes. */
  lemma ThreeTagExample()
    ensures GetTags([("The", "DT"), ("cat", "NN"), ("sat", "VBD")]) == [3, 12, 28]
  {
    ExampleLookups();
    GetTagsWithThree(PosDict, "The", "DT", "cat", "NN", "sat", "VBD");
  }
}
