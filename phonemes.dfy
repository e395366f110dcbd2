/** The phoneme-to-ID conversion of the Piper text-to-speech handler: every phonetic
    character of every word that is a key of the phoneme ID table contributes that key's
    whole ID list, in order; other characters are skipped; the ID list of the sentence
    terminal "." closes the sequence. */
module Phonemes {
  import opened Wrappers

  /** The table `phoneme_id_map` of the model configuration: JSON object keys are strings,
      each mapped to a list of integer IDs. */
  type PhonemeIdMap = map<string, seq<int>>

  /** One word of the grapheme-to-phoneme result, carrying its phonetic string. */
  datatype Word = Word(phonetic: string)

  /** The key whose IDs are always appended at the end (sentence silence). */
  const Terminal: string := "."

  /** The IDs one phonetic character contributes: the one-character key's whole list
      when it is in the table, nothing otherwise. */
  function CharIds(p: char, m: PhonemeIdMap): (r: seq<int>)
    ensures [p] in m ==> r == m[[p]]
    ensures [p] !in m ==> r == []
  {
    if [p] in m then m[[p]] else []
  }

  /** The IDs of one phonetic string, character by character in order. */
  function PhoneticIds(s: string, m: PhonemeIdMap): (r: seq<int>)
    ensures s == [] ==> r == []
    decreases |s|
  {
    if s == [] then [] else PhoneticIds(s[..|s| - 1], m) + CharIds(s[|s| - 1], m)
  }

  /** The IDs of a sequence of words, word by word in order, before the terminal. */
  function WordsIds(words: seq<Word>, m: PhonemeIdMap): (r: seq<int>)
    ensures words == [] ==> r == []
    decreases |words|
  {
    if words == [] then []
    else WordsIds(words[..|words| - 1], m) + PhoneticIds(words[|words| - 1].phonetic, m)
  }

  /** The full phoneme ID sequence handed to inference: the words' IDs followed by the
      ID list of the terminal. Looking the terminal up needs it to be a key. */
  function PhonemeIds(words: seq<Word>, m: PhonemeIdMap): (r: seq<int>)
    requires Terminal in m
    ensures |m[Terminal]| <= |r| && r[|r| - |m[Terminal]|..] == m[Terminal]
  {
    WordsIds(words, m) + m[Terminal]
  }

  /** The imperative conversion: a nested loop extending the ID list in place, then the
      terminal's lookup, which fails (a key error) when "." is not in the table. */
  method BuildPhonemeIds(words: seq<Word>, m: PhonemeIdMap) returns (r: Option<seq<int>>)
    ensures r == if Terminal in m then Some(PhonemeIds(words, m)) else None
  {
    var ids: seq<int> := [];
    var i := 0;
    while i < |words|
      invariant 0 <= i <= |words|
      invariant ids == WordsIds(words[..i], m)
    {
      var phonetic := words[i].phonetic;
      var j := 0;
      while j < |phonetic|
        invariant 0 <= j <= |phonetic|
        invariant ids == WordsIds(words[..i], m) + PhoneticIds(phonetic[..j], m)
      {
        var p := phonetic[j];
        if [p] in m {
          ids := ids + m[[p]];
        }
        assert phonetic[..j + 1][..j] == phonetic[..j];
        j := j + 1;
      }
      assert phonetic[..j] == phonetic;
      assert words[..i + 1][..i] == words[..i];
      i := i + 1;
    }
    assert words[..i] == words;
    if Terminal in m {
      r := Some(ids + m[Terminal]);
    } else {
      r := None;
    }
  }

  // ---------------------------------------------------------------------------
  // Reference definitions, stated front to back and independently of the loop

  /** All phonetic strings of the words, concatenated in word order. */
  function Flatten(words: seq<Word>): string
  {
    if words == [] then [] else words[0].phonetic + Flatten(words[1..])
  }

  /** The sum, over every character occurrence of `s` that is a key, of the length of
      that key's ID list. */
  function Weight(s: string, m: PhonemeIdMap): nat
  {
    if s == [] then 0 else (if [s[0]] in m then |m[[s[0]]]| else 0) + Weight(s[1..], m)
  }

  /** `x` is one of the IDs of a key that occurs in `s`. */
  ghost predicate ContributedBy(s: string, m: PhonemeIdMap, x: int)
  {
    exists i :: 0 <= i < |s| && [s[i]] in m && x in m[[s[i]]]
  }

  // ---------------------------------------------------------------------------
  // Properties of the conversion

  /** A single phonetic character contributes exactly its own IDs. */
  lemma {:induction false} PhoneticIdsSingle(c: char, m: PhonemeIdMap)
    ensures PhoneticIds([c], m) == CharIds(c, m)
  {
  }

  /** A single word contributes exactly the IDs of its phonetic string. */
  lemma {:induction false} WordsIdsSingle(w: Word, m: PhonemeIdMap)
    ensures WordsIds([w], m) == PhoneticIds(w.phonetic, m)
  {
  }

  /** Converting two strings one after the other is converting their concatenation. */
  lemma {:induction false} PhoneticIdsAppend(a: string, b: string, m: PhonemeIdMap)
    ensures PhoneticIds(a + b, m) == PhoneticIds(a, m) + PhoneticIds(b, m)
    decreases |b|
  {
    if b == [] {
      assert a + b == a;
    } else {
      var b' := b[..|b| - 1];
      assert (a + b)[..|a + b| - 1] == a + b';
      assert (a + b)[|a + b| - 1] == b[|b| - 1];
      PhoneticIdsAppend(a, b', m);
    }
  }

  /** Converting two word sequences one after the other is converting their concatenation. */
  lemma {:induction false} WordsIdsAppend(v: seq<Word>, w: seq<Word>, m: PhonemeIdMap)
    ensures WordsIds(v + w, m) == WordsIds(v, m) + WordsIds(w, m)
    decreases |w|
  {
    if w == [] {
      assert v + w == v;
    } else {
      var w' := w[..|w| - 1];
      assert (v + w)[..|v + w| - 1] == v + w';
      assert (v + w)[|v + w| - 1] == w[|w| - 1];
      WordsIdsAppend(v, w', m);
    }
  }

  /** A character at any position contributes exactly its own IDs at that position:
      the IDs before it come from the characters before it, those after from the ones after. */
  lemma {:induction false} PhoneticIdsAt(a: string, c: char, b: string, m: PhonemeIdMap)
    ensures PhoneticIds(a + [c] + b, m) == PhoneticIds(a, m) + CharIds(c, m) + PhoneticIds(b, m)
  {
    PhoneticIdsAppend(a + [c], b, m);
    PhoneticIdsAppend(a, [c], m);
    assert [c][..0] == [];
  }

  /** A mapped phoneme contributes its entire ID list, not a single ID. */
  lemma {:induction false} MappedCharContributesAll(a: string, c: char, b: string, m: PhonemeIdMap)
    requires [c] in m
    ensures PhoneticIds(a + [c] + b, m) == PhoneticIds(a, m) + m[[c]] + PhoneticIds(b, m)
  {
    PhoneticIdsAt(a, c, b, m);
  }

  /** The IDs of a word sequence, split around the word at index `k`. */
  lemma {:induction false} WordsIdsAt(words: seq<Word>, k: nat, m: PhonemeIdMap)
    requires k < |words|
    ensures WordsIds(words, m)
         == WordsIds(words[..k], m) + PhoneticIds(words[k].phonetic, m) + WordsIds(words[k + 1..], m)
  {
    assert words == words[..k] + [words[k]] + words[k + 1..];
    WordsIdsAppend(words[..k] + [words[k]], words[k + 1..], m);
    WordsIdsAppend(words[..k], [words[k]], m);
    WordsIdsSingle(words[k], m);
  }

  /** A phonetic character that is not a key contributes nothing and causes no error:
      deleting it from its word leaves the whole ID sequence unchanged. */
  lemma {:induction false} UnknownCharDropped(words: seq<Word>, k: nat, a: string, c: char, b: string,
                                              m: PhonemeIdMap)
    requires Terminal in m
    requires k < |words| && words[k].phonetic == a + [c] + b
    requires [c] !in m
    ensures PhonemeIds(words, m) == PhonemeIds(words[k := Word(a + b)], m)
  {
    var words' := words[k := Word(a + b)];
    var before, after := WordsIds(words[..k], m), WordsIds(words[k + 1..], m);
    WordsIdsAt(words, k, m);
    WordsIdsAt(words', k, m);
    assert words'[..k] == words[..k];
    assert words'[k + 1..] == words[k + 1..];
    assert words'[k].phonetic == a + b;
    PhoneticIdsAt(a, c, b, m);
    PhoneticIdsAppend(a, b, m);
    assert PhoneticIds(words[k].phonetic, m) == PhoneticIds(words'[k].phonetic, m);
    assert WordsIds(words, m) == before + PhoneticIds(words[k].phonetic, m) + after;
    assert WordsIds(words', m) == before + PhoneticIds(words'[k].phonetic, m) + after;
  }

  /** Order is preserved: the IDs are those of the characters of all words, concatenated
      in word order and, within a word, in character order. */
  lemma {:induction false} WordsIdsFlatten(words: seq<Word>, m: PhonemeIdMap)
    ensures WordsIds(words, m) == PhoneticIds(Flatten(words), m)
    decreases |words|
  {
    if words != [] {
      assert words == [words[0]] + words[1..];
      WordsIdsAppend([words[0]], words[1..], m);
      WordsIdsSingle(words[0], m);
      WordsIdsFlatten(words[1..], m);
      PhoneticIdsAppend(words[0].phonetic, Flatten(words[1..]), m);
    }
  }

  /** The whole sequence is the flattened phonetic text converted character by character,
      followed by the terminal's IDs. */
  lemma PhonemeIdsInOrder(words: seq<Word>, m: PhonemeIdMap)
    requires Terminal in m
    ensures PhonemeIds(words, m) == PhoneticIds(Flatten(words), m) + m[Terminal]
  {
    WordsIdsFlatten(words, m);
  }

  /** The length of a converted string is the weight of its mapped characters. */
  lemma {:induction false} PhoneticIdsLength(s: string, m: PhonemeIdMap)
    ensures |PhoneticIds(s, m)| == Weight(s, m)
    decreases |s|
  {
    if s != [] {
      assert s == [s[0]] + s[1..];
      PhoneticIdsAppend([s[0]], s[1..], m);
      assert [s[0]][..0] == [];
      PhoneticIdsLength(s[1..], m);
    }
  }

  /** Output length: the sum of |m[p]| over every mapped phoneme occurrence, plus the
      length of the terminal's list. */
  lemma PhonemeIdsLength(words: seq<Word>, m: PhonemeIdMap)
    requires Terminal in m
    ensures |PhonemeIds(words, m)| == Weight(Flatten(words), m) + |m[Terminal]|
  {
    WordsIdsFlatten(words, m);
    PhoneticIdsLength(Flatten(words), m);
  }

  /** With no mappable phoneme (in particular with no words at all) the output is exactly
      the terminal's ID list. */
  lemma {:induction false} NothingMappedYieldsTerminal(words: seq<Word>, m: PhonemeIdMap)
    requires Terminal in m
    requires forall k, i :: 0 <= k < |words| && 0 <= i < |words[k].phonetic| ==> [words[k].phonetic[i]] !in m
    ensures PhonemeIds(words, m) == m[Terminal]
  {
    WordsIdsFlatten(words, m);
    PhoneticIdsLength(Flatten(words), m);
    FlattenUnmappedWeight(words, m);
  }

  /** Helper: words without mapped characters have zero weight. */
  lemma {:induction false} FlattenUnmappedWeight(words: seq<Word>, m: PhonemeIdMap)
    requires forall k, i :: 0 <= k < |words| && 0 <= i < |words[k].phonetic| ==> [words[k].phonetic[i]] !in m
    ensures Weight(Flatten(words), m) == 0
    decreases |words|
  {
    if words != [] {
      FlattenUnmappedWeight(words[1..], m);
      UnmappedWeight(words[0].phonetic, Flatten(words[1..]), m);
    }
  }

  /** Helper: prefixing a string without mapped characters adds no weight. */
  lemma {:induction false} UnmappedWeight(a: string, b: string, m: PhonemeIdMap)
    requires forall i :: 0 <= i < |a| ==> [a[i]] !in m
    ensures Weight(a + b, m) == Weight(b, m)
    decreases |a|
  {
    if a != [] {
      assert [a[0]] !in m;
      assert (a + b)[1..] == a[1..] + b;
      UnmappedWeight(a[1..], b, m);
    } else {
      assert a + b == b;
    }
  }

  /** An ID occurs in a converted string exactly when some mapped character of the string
      has it in its ID list. */
  lemma {:induction false} PhoneticIdsMember(s: string, m: PhonemeIdMap, x: int)
    ensures x in PhoneticIds(s, m) <==> ContributedBy(s, m, x)
    decreases |s|
  {
    if s != [] {
      var s' := s[..|s| - 1];
      var last := |s| - 1;
      PhoneticIdsMember(s', m, x);
      if x in PhoneticIds(s, m) {
        if x in PhoneticIds(s', m) {
          var i :| 0 <= i < |s'| && [s'[i]] in m && x in m[[s'[i]]];
          assert s[i] == s'[i];
        } else {
          assert x in CharIds(s[last], m);
          assert [s[last]] in m && x in m[[s[last]]];
        }
      } else {
        forall i | 0 <= i < |s| && [s[i]] in m
          ensures x !in m[[s[i]]]
        {
          if i < last {
            assert s'[i] == s[i];
          }
        }
      }
    }
  }

  /** Every output ID comes from a mapped character of the words or from the terminal,
      and every ID of such a character, and of the terminal, is in the output. */
  lemma PhonemeIdsMember(words: seq<Word>, m: PhonemeIdMap, x: int)
    requires Terminal in m
    ensures x in PhonemeIds(words, m) <==> ContributedBy(Flatten(words), m, x) || x in m[Terminal]
  {
    WordsIdsFlatten(words, m);
    PhoneticIdsMember(Flatten(words), m, x);
  }
}
