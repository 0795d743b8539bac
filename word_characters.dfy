/**
 * The word-to-character link generator of scripts/generateWordCharacters.js.
 *
 * Every word is split into its code points (a Dafny `char` is a Unicode scalar
 * value, so `string` is exactly what `Array.from(word.word)` yields); each code
 * point is looked up in the character table, and one link row is emitted per
 * distinct character id, carrying the 1-based position of its first occurrence.
 * The rows are appended to the module-level `wordCharacters` array.
 */
module WordCharacters {
  import opened Wrappers

  /** A row of the words table. */
  datatype Word = Word(id: string, word: string)

  /** A row of the characters table. */
  datatype Character = Character(id: string, character: string)

  /** An emitted link row: `{word_id, character_id, order}`. */
  datatype WordCharacter = WordCharacter(wordId: string, characterId: string, order: nat)

  /**
   * `new Map(characters.map(c => [c.character, c.id]))`: inserting the pairs
   * in order, so a later entry for the same character overwrites an earlier one.
   */
  function CharMap(characters: seq<Character>): (charMap: map<string, string>)
    ensures forall i :: 0 <= i < |characters| ==> characters[i].character in charMap
    ensures forall key :: key in charMap ==>
              exists i :: 0 <= i < |characters| && characters[i].character == key && characters[i].id == charMap[key]
  {
    if characters == [] then map[]
    else
      var rest := CharMap(characters[..|characters| - 1]);
      var last := characters[|characters| - 1];
      rest[last.character := last.id]
  }

  /**
   * The id a code point maps to, when it is truthy: `charMap.get(char)`
   * gives `undefined` for an unknown character, and an empty id is falsy.
   */
  function IdOf(charMap: map<string, string>, ch: char): Option<string>
  {
    if [ch] in charMap && charMap[[ch]] != "" then Some(charMap[[ch]]) else None
  }

  /** The ids of the first `k` code points of `chars` (the `seen` set after `k` steps). */
  function SeenIds(charMap: map<string, string>, chars: string, k: nat): set<string>
    requires k <= |chars|
  {
    if k == 0 then {}
    else
      SeenIds(charMap, chars, k - 1) +
      (match IdOf(charMap, chars[k - 1]) case Some(id) => {id} case None => {})
  }

  /** The rows emitted for `word` after its first `k` code points were visited. */
  function WordLinks(word: Word, charMap: map<string, string>, k: nat): seq<WordCharacter>
    requires k <= |word.word|
  {
    if k == 0 then []
    else
      var id := IdOf(charMap, word.word[k - 1]);
      WordLinks(word, charMap, k - 1) +
      (if id.Some? && id.value !in SeenIds(charMap, word.word, k - 1)
       then [WordCharacter(word.id, id.value, k)]
       else [])
  }

  /** All rows for `words`, word by word in input order. */
  function AllLinks(words: seq<Word>, charMap: map<string, string>): seq<WordCharacter>
  {
    if words == [] then []
    else
      var last := words[|words| - 1];
      AllLinks(words[..|words| - 1], charMap) + WordLinks(last, charMap, |last.word|)
  }

  /** The row set of one word, once all its code points were visited. */
  function LinksOf(word: Word, charMap: map<string, string>): seq<WordCharacter>
  {
    WordLinks(word, charMap, |word.word|)
  }

  /** The module-level `wordCharacters` array. */
  class WordCharacterTable {
    var wordCharacters: seq<WordCharacter>

    constructor ()
      ensures wordCharacters == []
    {
      wordCharacters := [];
    }

    /**
     * `generateWordCharacters(words, characters)`: the rows already in the
     * array stay as a prefix and the rows of every word are appended.
     */
    method GenerateWordCharacters(words: seq<Word>, characters: seq<Character>)
      modifies this
      ensures wordCharacters == old(wordCharacters) + AllLinks(words, CharMap(characters))
    {
      var charMap := CharMap(characters);
      AppendAllLinks(words, charMap);
    }

    /** The loop over words, with the character map built once. */
    method AppendAllLinks(words: seq<Word>, charMap: map<string, string>)
      modifies this
      ensures wordCharacters == old(wordCharacters) + AllLinks(words, charMap)
    {
      var w := 0;
      while w < |words|
        invariant 0 <= w <= |words|
        invariant wordCharacters == old(wordCharacters) + AllLinks(words[..w], charMap)
      {
        AppendLinksOf(words[w], charMap);
        assert wordCharacters == old(wordCharacters) + AllLinks(words[..w + 1], charMap) by {
          AllLinksStep(words, w, charMap);
        }
        w := w + 1;
      }
      assert words[..|words|] == words;
    }

    /**
     * The body of the loop over words: `Array.from(word.word).forEach(...)`
     * with a fresh `seen` set, appending the rows of this one word.
     */
    method AppendLinksOf(word: Word, charMap: map<string, string>)
      modifies this
      ensures wordCharacters == old(wordCharacters) + LinksOf(word, charMap)
    {
      var chars := word.word;
      var seen: set<string> := {};
      var index := 0;
      while index < |chars|
        invariant 0 <= index <= |chars|
        invariant seen == SeenIds(charMap, chars, index)
        invariant wordCharacters == old(wordCharacters) + WordLinks(word, charMap, index)
      {
        WordLinksStep(word, charMap, index);
        var key := [chars[index]];
        if key in charMap {
          var characterId := charMap[key];
          if characterId != "" && characterId !in seen {
            var row := WordCharacter(word.id, characterId, index + 1);
            assert old(wordCharacters) + WordLinks(word, charMap, index) + [row]
                == old(wordCharacters) + (WordLinks(word, charMap, index) + [row]);
            wordCharacters := wordCharacters + [row];
            seen := seen + {characterId};
          }
        }
        index := index + 1;
      }
    }
  }

  /** One step of the inner loop: the `seen` set and the rows after visiting position `k`. */
  lemma WordLinksStep(word: Word, charMap: map<string, string>, k: nat)
    requires k < |word.word|
    ensures var id := IdOf(charMap, word.word[k]);
      && SeenIds(charMap, word.word, k + 1) ==
           SeenIds(charMap, word.word, k) + (if id.Some? then {id.value} else {})
      && WordLinks(word, charMap, k + 1) ==
           WordLinks(word, charMap, k) +
           (if id.Some? && id.value !in SeenIds(charMap, word.word, k)
            then [WordCharacter(word.id, id.value, k + 1)] else [])
  {
  }

  /** One step of the outer loop: the rows after the first `w + 1` words. */
  lemma AllLinksStep(words: seq<Word>, w: nat, charMap: map<string, string>)
    requires w < |words|
    ensures AllLinks(words[..w + 1], charMap) == AllLinks(words[..w], charMap) + LinksOf(words[w], charMap)
  {
    assert words[..w + 1][..w] == words[..w];
  }

  // ---------------------------------------------------------------------------
  // Properties of the character map

  /** The id used for a character is that of its LAST entry in the table. */
  lemma {:induction false} CharMapLastWins(characters: seq<Character>, i: nat)
    requires i < |characters|
    requires forall j :: i < j < |characters| ==> characters[j].character != characters[i].character
    ensures CharMap(characters)[characters[i].character] == characters[i].id
  {
    if i < |characters| - 1 {
      var init := characters[..|characters| - 1];
      CharMapLastWins(init, i);
    }
  }

  // ---------------------------------------------------------------------------
  // Properties of the rows of one word

  /** `seen` holds exactly the truthy ids of the code points visited so far. */
  lemma {:induction false} SeenIdsMeans(charMap: map<string, string>, chars: string, k: nat, id: string)
    requires k <= |chars|
    ensures id in SeenIds(charMap, chars, k) <==> exists j :: 0 <= j < k && IdOf(charMap, chars[j]) == Some(id)
  {
    if k > 0 {
      SeenIdsMeans(charMap, chars, k - 1, id);
    }
  }

  /**
   * A row is a valid link of `word`: it carries the word's id, its `order`
   * is a position of the word, the code point there maps to the row's id,
   * and no earlier code point maps to that id.
   */
  ghost predicate LinkOf(word: Word, charMap: map<string, string>, r: WordCharacter)
  {
    && r.wordId == word.id
    && 1 <= r.order <= |word.word|
    && IdOf(charMap, word.word[r.order - 1]) == Some(r.characterId)
    && r.characterId !in SeenIds(charMap, word.word, r.order - 1)
  }

  /** Every row emitted for a word after `k` steps is a valid link at a visited position. */
  lemma {:induction false} WordLinksSound(word: Word, charMap: map<string, string>, k: nat)
    requires k <= |word.word|
    ensures forall r :: r in WordLinks(word, charMap, k) ==> LinkOf(word, charMap, r) && r.order <= k
  {
    if k > 0 {
      WordLinksSound(word, charMap, k - 1);
      WordLinksStep(word, charMap, k - 1);
    }
  }

  /** `order` is the first position of the word whose code point maps to the row's id. */
  lemma FirstOccurrence(word: Word, charMap: map<string, string>, r: WordCharacter, j: nat)
    requires r in LinksOf(word, charMap)
    requires j < r.order - 1
    ensures 1 <= r.order <= |word.word|
    ensures IdOf(charMap, word.word[r.order - 1]) == Some(r.characterId)
    ensures IdOf(charMap, word.word[j]) != Some(r.characterId)
  {
    WordLinksSound(word, charMap, |word.word|);
    SeenIdsMeans(charMap, word.word, r.order - 1, r.characterId);
  }

  /** The ids of the rows are exactly the truthy ids of the visited code points. */
  lemma {:induction false} WordLinksIds(word: Word, charMap: map<string, string>, k: nat)
    requires k <= |word.word|
    ensures forall id :: id in SeenIds(charMap, word.word, k) <==>
              exists i :: 0 <= i < |WordLinks(word, charMap, k)| && WordLinks(word, charMap, k)[i].characterId == id
  {
    if k > 0 {
      WordLinksIds(word, charMap, k - 1);
      WordLinksStep(word, charMap, k - 1);
      var prev := WordLinks(word, charMap, k - 1);
      var rows := WordLinks(word, charMap, k);
      forall id | id in SeenIds(charMap, word.word, k)
        ensures exists i :: 0 <= i < |rows| && rows[i].characterId == id
      {
        if id in SeenIds(charMap, word.word, k - 1) {
          var i :| 0 <= i < |prev| && prev[i].characterId == id;
          assert rows[i] == prev[i];
        } else {
          assert rows[|rows| - 1].characterId == id;
        }
      }
      forall i | 0 <= i < |rows|
        ensures rows[i].characterId in SeenIds(charMap, word.word, k)
      {
        if i < |prev| {
          assert rows[i] == prev[i];
          assert prev[i].characterId in SeenIds(charMap, word.word, k - 1);
        }
      }
    }
  }

  /**
   * Within one word every character id appears at most once, and the `order`
   * values strictly increase.
   */
  lemma {:induction false} WordLinksDistinctOrdered(word: Word, charMap: map<string, string>, k: nat)
    requires k <= |word.word|
    ensures var rows := WordLinks(word, charMap, k);
      forall i, j :: 0 <= i < j < |rows| ==>
        rows[i].characterId != rows[j].characterId && rows[i].order < rows[j].order
  {
    if k > 0 {
      WordLinksDistinctOrdered(word, charMap, k - 1);
      WordLinksSound(word, charMap, k - 1);
      WordLinksIds(word, charMap, k - 1);
      WordLinksStep(word, charMap, k - 1);
      var prev := WordLinks(word, charMap, k - 1);
      var rows := WordLinks(word, charMap, k);
      forall i, j | 0 <= i < j < |rows|
        ensures rows[i].characterId != rows[j].characterId && rows[i].order < rows[j].order
      {
        assert rows[i] == prev[i];
        if j < |prev| {
          assert rows[j] == prev[j];
        } else {
          assert prev[i].characterId in SeenIds(charMap, word.word, k - 1);
          assert rows[j].order == k && rows[j].characterId !in SeenIds(charMap, word.word, k - 1);
        }
      }
    }
  }

  /** The number of rows of a word is the number of distinct ids its code points map to. */
  lemma {:induction false} WordLinksCount(word: Word, charMap: map<string, string>, k: nat)
    requires k <= |word.word|
    ensures |WordLinks(word, charMap, k)| == |SeenIds(charMap, word.word, k)|
  {
    if k > 0 {
      WordLinksCount(word, charMap, k - 1);
      WordLinksCountStep(word, charMap, k);
    }
  }

  lemma WordLinksCountStep(word: Word, charMap: map<string, string>, k: nat)
    requires 0 < k <= |word.word|
    requires |WordLinks(word, charMap, k - 1)| == |SeenIds(charMap, word.word, k - 1)|
    ensures |WordLinks(word, charMap, k)| == |SeenIds(charMap, word.word, k)|
  {
    var seen := SeenIds(charMap, word.word, k - 1);
    var id := IdOf(charMap, word.word[k - 1]);
    if id.Some? && id.value !in seen {
      var row := WordCharacter(word.id, id.value, k);
      assert WordLinks(word, charMap, k) == WordLinks(word, charMap, k - 1) + [row];
      assert SeenIds(charMap, word.word, k) == seen + {id.value};
      assert |seen + {id.value}| == |seen| + 1;
    } else {
      assert WordLinks(word, charMap, k) == WordLinks(word, charMap, k - 1);
      assert SeenIds(charMap, word.word, k) == seen;
    }
  }

  /** The distinct code points among the first `k` of `chars`. */
  ghost function DistinctChars(chars: string, k: nat): set<char>
    requires k <= |chars|
  {
    set j | 0 <= j < k :: chars[j]
  }

  /** ... which is at most the number of distinct code points among them. */
  lemma {:induction false} WordLinksAtMostDistinct(word: Word, charMap: map<string, string>, k: nat)
    requires k <= |word.word|
    ensures |WordLinks(word, charMap, k)| <= |DistinctChars(word.word, k)|
  {
    if k > 0 {
      WordLinksAtMostDistinct(word, charMap, k - 1);
      var before := DistinctChars(word.word, k - 1);
      var ch := word.word[k - 1];
      assert DistinctChars(word.word, k) == before + {ch};
      if ch in before {
        RepeatAddsNoRow(word, charMap, k);
        assert before + {ch} == before;
      } else {
        WordLinksStep(word, charMap, k - 1);
        assert |WordLinks(word, charMap, k)| <= |WordLinks(word, charMap, k - 1)| + 1;
        assert |before + {ch}| == |before| + 1;
      }
    }
  }

  /** A code point seen before adds no row: its id, if any, is already in `seen`. */
  lemma RepeatAddsNoRow(word: Word, charMap: map<string, string>, k: nat)
    requires 0 < k <= |word.word|
    requires word.word[k - 1] in DistinctChars(word.word, k - 1)
    ensures WordLinks(word, charMap, k) == WordLinks(word, charMap, k - 1)
  {
    var ch := word.word[k - 1];
    var j :| 0 <= j < k - 1 && word.word[j] == ch;
    var id := IdOf(charMap, ch);
    WordLinksStep(word, charMap, k - 1);
    if id.Some? {
      SeenIdsMeans(charMap, word.word, k - 1, id.value);
      assert IdOf(charMap, word.word[j]) == id;
    }
  }

  // ---------------------------------------------------------------------------
  // Properties of all rows

  /** The rows of a list of words are the rows of its parts, in order. */
  lemma {:induction false} AllLinksAppend(first: seq<Word>, second: seq<Word>, charMap: map<string, string>)
    ensures AllLinks(first + second, charMap) == AllLinks(first, charMap) + AllLinks(second, charMap)
  {
    if second != [] {
      var init := second[..|second| - 1];
      assert (first + second)[..|first + second| - 1] == first + init;
      AllLinksAppend(first, init, charMap);
    } else {
      assert first + second == first;
    }
  }

  /** Rows are grouped by word in input order: the first word's rows come first. */
  lemma GroupedByWord(word: Word, rest: seq<Word>, charMap: map<string, string>)
    ensures AllLinks([word] + rest, charMap) == LinksOf(word, charMap) + AllLinks(rest, charMap)
  {
    AllLinksAppend([word], rest, charMap);
    assert [word][..0] == [];
  }

  /** Every row belongs to one of the input words and names a character of it. */
  lemma {:induction false} AllLinksSound(words: seq<Word>, charMap: map<string, string>)
    ensures forall r :: r in AllLinks(words, charMap) ==>
              exists w :: w in words && r.wordId == w.id && 1 <= r.order <= |w.word|
                                     && IdOf(charMap, w.word[r.order - 1]) == Some(r.characterId)
  {
    if words != [] {
      var init := words[..|words| - 1];
      var last := words[|words| - 1];
      AllLinksSound(init, charMap);
      WordLinksSound(last, charMap, |last.word|);
      forall r | r in AllLinks(words, charMap)
        ensures exists w :: w in words && r.wordId == w.id && 1 <= r.order <= |w.word|
                            && IdOf(charMap, w.word[r.order - 1]) == Some(r.characterId)
      {
        if r in AllLinks(init, charMap) {
          var w :| w in init && r.wordId == w.id && 1 <= r.order <= |w.word|
                   && IdOf(charMap, w.word[r.order - 1]) == Some(r.characterId);
          assert w in words;
        } else {
          var rows := WordLinks(last, charMap, |last.word|);
          assert r in rows && LinkOf(last, charMap, r);
          assert last in words;
        }
      }
    }
  }
}
