/**
 * The word-detail data shared by src/components/word/ClientWordDetail.tsx
 * and its older variant src/components/word/WordDetailClient.tsx: the word
 * row with its joined examples, relations and bookmarks, the AI-generated
 * lists, the tag filter that splits relations into synonyms and antonyms,
 * and the rows built for the `examples` and `word_relations` inserts (the
 * two files build them identically).
 */
module WordRows {
  import opened Wrappers

  datatype RelationType = Synonym | Antonym

  datatype Example = Example(sentence: string, meaning: string, pinyin: string, context: string)

  /** A related word; `relationType` may be absent, e.g. in AI-generated data. */
  datatype Relation = Relation(word: string, meaning: string, pinyin: string, relationType: Option<RelationType>)

  datatype BookmarkRef = BookmarkRef(id: string, userId: string)

  /** The `words` row with its joins; a join may come back absent. */
  datatype WordInfo = WordInfo(id: string, word: string, pinyin: string, meaning: string, partOfSpeech: string,
                               examples: Option<seq<Example>>, relations: Option<seq<Relation>>,
                               bookmarks: Option<seq<BookmarkRef>>)

  /** The displayed word; `isBookmarked` is absent in the older variant. */
  datatype WordData = WordData(id: string, word: string, pinyin: string, meaning: string, partOfSpeech: string,
                               examples: seq<Example>, relations: seq<Relation>, isBookmarked: Option<bool>)

  /** The body returned by the generation endpoint; any list may be missing. */
  datatype Generated = Generated(examples: Option<seq<Example>>, synonyms: Option<seq<Relation>>,
                                 antonyms: Option<seq<Relation>>)

  datatype ExampleRow = ExampleRow(wordId: string, sentence: string, meaning: string, pinyin: string, context: string)

  datatype RelationRow = RelationRow(wordId: string, word: string, meaning: string, pinyin: string,
                                     relationType: RelationType)

  /** An insert the page attempts; its own failure is only logged. */
  datatype WordInsert = InsertExamples(examples: seq<ExampleRow>) | InsertRelations(relations: seq<RelationRow>)

  /** The three lists the page works with. */
  datatype Lists = Lists(examples: seq<Example>, synonyms: seq<Relation>, antonyms: seq<Relation>)

  /** `relations.filter(rel => rel.relation_type === t)`. */
  function WithTag(relations: seq<Relation>, t: RelationType): (r: seq<Relation>)
    ensures |r| <= |relations|
  {
    if relations == [] then []
    else
      var last := relations[|relations| - 1];
      WithTag(relations[..|relations| - 1], t) + (if last.relationType == Some(t) then [last] else [])
  }

  /** The filter keeps exactly the items carrying the tag. */
  lemma {:induction false} WithTagMembers(relations: seq<Relation>, t: RelationType)
    ensures forall x :: x in WithTag(relations, t) <==> x in relations && x.relationType == Some(t)
  {
    if relations != [] {
      var init := relations[..|relations| - 1];
      WithTagMembers(init, t);
      assert relations == init + [relations[|relations| - 1]];
    }
  }

  ghost predicate AllTagged(relations: seq<Relation>, t: RelationType)
  {
    forall i :: 0 <= i < |relations| ==> relations[i].relationType == Some(t)
  }

  /** `list.map(s => ({ ...s, relation_type: t }))`. */
  function Retag(relations: seq<Relation>, t: RelationType): (r: seq<Relation>)
    ensures |r| == |relations| && AllTagged(r, t)
    ensures forall i :: 0 <= i < |r| ==>
              r[i].word == relations[i].word && r[i].meaning == relations[i].meaning && r[i].pinyin == relations[i].pinyin
  {
    seq(|relations|, i requires 0 <= i < |relations| => relations[i].(relationType := Some(t)))
  }

  /** `examples || []` and the two `word_relations?.filter(...) || []`. */
  function StoredLists(info: WordInfo): Lists
  {
    Lists(info.examples.GetOr([]), WithTag(info.relations.GetOr([]), Synonym), WithTag(info.relations.GetOr([]), Antonym))
  }

  /** Some list is empty, so generation is wanted. */
  predicate AnyEmpty(lists: Lists)
  {
    |lists.examples| == 0 || |lists.synonyms| == 0 || |lists.antonyms| == 0
  }

  /** `{ ...wordInfo, examples, word_relations: [...synonyms, ...antonyms] }`. */
  function Merged(info: WordInfo, lists: Lists, isBookmarked: Option<bool>): WordData
  {
    WordData(info.id, info.word, info.pinyin, info.meaning, info.partOfSpeech, lists.examples,
             lists.synonyms + lists.antonyms, isBookmarked)
  }

  /** The rows of `insertExamples`. */
  function ExampleRows(wordId: string, examples: seq<Example>): seq<ExampleRow>
  {
    seq(|examples|, i requires 0 <= i < |examples| =>
      ExampleRow(wordId, examples[i].sentence, examples[i].meaning, examples[i].pinyin, examples[i].context))
  }

  function TaggedRows(wordId: string, relations: seq<Relation>, t: RelationType): seq<RelationRow>
  {
    seq(|relations|, i requires 0 <= i < |relations| =>
      RelationRow(wordId, relations[i].word, relations[i].meaning, relations[i].pinyin, t))
  }

  /** The rows of `insertWordRelations`: synonym rows, then antonym rows. */
  function RelationRows(wordId: string, synonyms: seq<Relation>, antonyms: seq<Relation>): seq<RelationRow>
  {
    TaggedRows(wordId, synonyms, Synonym) + TaggedRows(wordId, antonyms, Antonym)
  }

  // ---------------------------------------------------------------------------
  // Properties of the filter and the row builders

  lemma {:induction false} WithTagAppend(xs: seq<Relation>, ys: seq<Relation>, t: RelationType)
    ensures WithTag(xs + ys, t) == WithTag(xs, t) + WithTag(ys, t)
    decreases |ys|
  {
    if ys == [] {
      assert xs + ys == xs;
    } else {
      var zs := ys[..|ys| - 1];
      assert (xs + ys)[..|xs + ys| - 1] == xs + zs;
      assert (xs + ys)[|xs + ys| - 1] == ys[|ys| - 1];
      WithTagAppend(xs, zs, t);
    }
  }

  /** The filter keeps a list whose items all carry the tag. */
  lemma {:induction false} WithTagKeepsTagged(relations: seq<Relation>, t: RelationType)
    requires AllTagged(relations, t)
    ensures WithTag(relations, t) == relations
  {
    if relations != [] {
      WithTagKeepsTagged(relations[..|relations| - 1], t);
    }
  }

  /** The filter drops every item carrying another tag. */
  lemma {:induction false} WithTagDropsOthers(relations: seq<Relation>, t: RelationType, other: RelationType)
    requires AllTagged(relations, other) && other != t
    ensures WithTag(relations, t) == []
  {
    if relations != [] {
      WithTagDropsOthers(relations[..|relations| - 1], t, other);
    }
  }

  /** The filter drops every untagged item. */
  lemma {:induction false} WithTagDropsUntagged(relations: seq<Relation>, t: RelationType)
    requires forall i :: 0 <= i < |relations| ==> relations[i].relationType.None?
    ensures WithTag(relations, t) == []
  {
    if relations != [] {
      WithTagDropsUntagged(relations[..|relations| - 1], t);
    }
  }

  /** The filtered lists carry their tag. */
  lemma WithTagTagged(relations: seq<Relation>, t: RelationType)
    ensures AllTagged(WithTag(relations, t), t)
  {
    var r := WithTag(relations, t);
    WithTagMembers(relations, t);
    forall i | 0 <= i < |r|
      ensures r[i].relationType == Some(t)
    {
      assert r[i] in r;
    }
  }

  /**
   * Display round trip: joining tagged synonyms and antonyms and filtering
   * the join by tag again gives back the two lists.
   */
  lemma DisplayRoundTrip(synonyms: seq<Relation>, antonyms: seq<Relation>)
    requires AllTagged(synonyms, Synonym) && AllTagged(antonyms, Antonym)
    ensures WithTag(synonyms + antonyms, Synonym) == synonyms
    ensures WithTag(synonyms + antonyms, Antonym) == antonyms
  {
    WithTagAppend(synonyms, antonyms, Synonym);
    WithTagAppend(synonyms, antonyms, Antonym);
    WithTagKeepsTagged(synonyms, Synonym);
    WithTagKeepsTagged(antonyms, Antonym);
    WithTagDropsOthers(antonyms, Synonym, Antonym);
    WithTagDropsOthers(synonyms, Antonym, Synonym);
  }

  /** The stored lists, joined and split again, come back unchanged. */
  lemma StoredRoundTrip(info: WordInfo)
    ensures var stored := StoredLists(info);
      && WithTag(stored.synonyms + stored.antonyms, Synonym) == stored.synonyms
      && WithTag(stored.synonyms + stored.antonyms, Antonym) == stored.antonyms
  {
    var stored := StoredLists(info);
    WithTagTagged(info.relations.GetOr([]), Synonym);
    WithTagTagged(info.relations.GetOr([]), Antonym);
    DisplayRoundTrip(stored.synonyms, stored.antonyms);
  }

  /** Retagged lists, joined and split again, come back unchanged. */
  lemma RetaggedRoundTrip(synonyms: seq<Relation>, antonyms: seq<Relation>)
    ensures WithTag(Retag(synonyms, Synonym) + Retag(antonyms, Antonym), Synonym) == Retag(synonyms, Synonym)
    ensures WithTag(Retag(synonyms, Synonym) + Retag(antonyms, Antonym), Antonym) == Retag(antonyms, Antonym)
  {
    DisplayRoundTrip(Retag(synonyms, Synonym), Retag(antonyms, Antonym));
  }

  /** One example row per example, in order, with the four fields and the word's id. */
  lemma ExampleRowsCopy(wordId: string, examples: seq<Example>)
    ensures var rows := ExampleRows(wordId, examples);
      && |rows| == |examples|
      && forall i :: 0 <= i < |rows| ==>
           rows[i].wordId == wordId && rows[i].sentence == examples[i].sentence
           && rows[i].meaning == examples[i].meaning && rows[i].pinyin == examples[i].pinyin
           && rows[i].context == examples[i].context
  {
  }

  /**
   * One relation row per input: the synonyms first, tagged synonym, then the
   * antonyms, tagged antonym, each with the word's id; an input's own tag is
   * ignored.
   */
  lemma RelationRowsTagged(wordId: string, synonyms: seq<Relation>, antonyms: seq<Relation>)
    ensures var rows := RelationRows(wordId, synonyms, antonyms);
      && |rows| == |synonyms| + |antonyms|
      && (forall i :: 0 <= i < |rows| ==> rows[i].wordId == wordId)
      && (forall i :: 0 <= i < |synonyms| ==>
            rows[i] == RelationRow(wordId, synonyms[i].word, synonyms[i].meaning, synonyms[i].pinyin, Synonym))
      && (forall i :: 0 <= i < |antonyms| ==>
            rows[|synonyms| + i]
            == RelationRow(wordId, antonyms[i].word, antonyms[i].meaning, antonyms[i].pinyin, Antonym))
  {
  }
}
