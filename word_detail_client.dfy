/**
 * The loading logic of src/components/word/WordDetailClient.tsx, the older
 * variant of the word page: no once-guard, the pinyin audio is awaited
 * inside the same `try`, relations are replaced when either list is empty,
 * and generated relations keep whatever tag they came with.
 */
module WordDetailClient {
  import opened Wrappers
  import opened WordRows

  datatype LoadError =
    | WordNotFound      // the query failed or returned no row
    | AudioFailed       // the audio request or its JSON failed
    | GenerationFailed  // the generation request or its JSON failed
    | MissingGenerated  // a generated list needed for an insert is missing

  datatype PageState = PageState(wordId: string, wordData: Option<WordData>, audioUrl: string, loading: bool,
                                 error: Option<LoadError>)

  datatype FetchStep = FetchStep(state: PageState, inserts: seq<WordInsert>, requested: bool)

  predicate EitherRelationEmpty(stored: Lists)
  {
    |stored.synonyms| == 0 || |stored.antonyms| == 0
  }

  function Show(s: PageState, info: WordInfo, lists: Lists, inserts: seq<WordInsert>, requested: bool): FetchStep
  {
    FetchStep(s.(wordData := Some(Merged(info, lists, None)), loading := false), inserts, requested)
  }

  function Fail(s: PageState, e: LoadError, inserts: seq<WordInsert>, requested: bool): FetchStep
  {
    FetchStep(s.(error := Some(e), loading := false), inserts, requested)
  }

  /**
   * `fetchWordData`. `query` is `None` on a query error; `audio` is the
   * audio URL, `None` when that request fails.
   */
  function Fetch(s: PageState, query: Option<seq<WordInfo>>, audio: Option<string>, generated: Option<Generated>): FetchStep
  {
    if query.None? || query.value == [] then Fail(s, WordNotFound, [], false)
    else if audio.None? then Fail(s, AudioFailed, [], false)
    else
      var s1 := s.(audioUrl := audio.value);
      var info := query.value[0];
      var stored := StoredLists(info);
      if !AnyEmpty(stored) then Show(s1, info, stored, [], false)
      else if generated.None? then Fail(s1, GenerationFailed, [], true)
      else
        var gen := generated.value;
        var replaceExamples := |stored.examples| == 0;
        if replaceExamples && gen.examples.None? then Fail(s1, MissingGenerated, [], true)
        else
          var exampleInserts := if replaceExamples then [InsertExamples(ExampleRows(s.wordId, gen.examples.value))] else [];
          var examples := if replaceExamples then gen.examples.value else stored.examples;
          var replaceRelations := EitherRelationEmpty(stored);
          if replaceRelations && (gen.synonyms.None? || gen.antonyms.None?) then
            Fail(s1, MissingGenerated, exampleInserts, true)
          else
            var lists :=
              if replaceRelations then Lists(examples, gen.synonyms.value, gen.antonyms.value)
              else Lists(examples, stored.synonyms, stored.antonyms);
            var relationInserts :=
              if replaceRelations then [InsertRelations(RelationRows(s.wordId, gen.synonyms.value, gen.antonyms.value))]
              else [];
            Show(s1, info, lists, exampleInserts + relationInserts, true)
  }

  predicate GenerationSucceeds(stored: Lists, generated: Option<Generated>)
  {
    AnyEmpty(stored) ==>
      && generated.Some?
      && (|stored.examples| == 0 ==> generated.value.examples.Some?)
      && (EitherRelationEmpty(stored) ==> generated.value.synonyms.Some? && generated.value.antonyms.Some?)
  }

  function ShownLists(stored: Lists, generated: Option<Generated>): Lists
    requires GenerationSucceeds(stored, generated)
  {
    if !AnyEmpty(stored) then stored
    else
      var gen := generated.value;
      Lists(if |stored.examples| == 0 then gen.examples.value else stored.examples,
            if EitherRelationEmpty(stored) then gen.synonyms.value else stored.synonyms,
            if EitherRelationEmpty(stored) then gen.antonyms.value else stored.antonyms)
  }

  // ---------------------------------------------------------------------------
  // Properties

  /** An error, a null result or an empty result list is "word not found"; nothing else happens. */
  lemma NotFound(s: PageState, query: Option<seq<WordInfo>>, audio: Option<string>, generated: Option<Generated>)
    ensures var r := Fetch(s, query, audio, generated);
      (r.state.error == Some(WordNotFound) && r.state.error != s.error) ==> (query.None? || query.value == [])
    ensures query.None? || query.value == [] ==>
      Fetch(s, query, audio, generated) == FetchStep(s.(error := Some(WordNotFound), loading := false), [], false)
  {
  }

  /** A failed audio request aborts the load before any generation. */
  lemma AudioFailureAborts(s: PageState, info: WordInfo, rest: seq<WordInfo>, generated: Option<Generated>)
    ensures Fetch(s, Some([info] + rest), None, generated)
         == FetchStep(s.(error := Some(AudioFailed), loading := false), [], false)
  {
  }

  /** Generation is requested whenever a list is empty; there is no guard, so every fetch asks again. */
  lemma GenerationRequestedExactly(s: PageState, info: WordInfo, rest: seq<WordInfo>, url: string,
                                   generated: Option<Generated>)
    ensures Fetch(s, Some([info] + rest), Some(url), generated).requested <==> AnyEmpty(StoredLists(info))
  {
  }

  /** A found word is shown from the first row exactly when the generation it needs succeeds. */
  lemma ShownMerge(s: PageState, info: WordInfo, rest: seq<WordInfo>, url: string, generated: Option<Generated>)
    requires GenerationSucceeds(StoredLists(info), generated)
    ensures var r := Fetch(s, Some([info] + rest), Some(url), generated);
      && r.state.wordData == Some(Merged(info, ShownLists(StoredLists(info), generated), None))
      && r.state.audioUrl == url && !r.state.loading && r.state.error == s.error
  {
  }

  /** Any thrown failure sets an error, keeps the old word and ends loading. */
  lemma FailedGeneration(s: PageState, info: WordInfo, rest: seq<WordInfo>, url: string, generated: Option<Generated>)
    requires !GenerationSucceeds(StoredLists(info), generated)
    ensures var r := Fetch(s, Some([info] + rest), Some(url), generated);
      r.state.error.Some? && r.state.wordData == s.wordData && !r.state.loading && r.requested
  {
  }

  /** Examples are replaced exactly when the stored list is empty. */
  lemma ExamplesReplacedWhenEmpty(stored: Lists, generated: Option<Generated>)
    requires GenerationSucceeds(stored, generated)
    ensures var shown := ShownLists(stored, generated);
      (|stored.examples| == 0 ==> shown.examples == generated.value.examples.value)
      && (|stored.examples| > 0 ==> shown.examples == stored.examples)
  {
  }

  /**
   * If either relation list is empty both are replaced by the generated
   * lists, as they came, even a non-empty stored list.
   */
  lemma RelationsReplacedWhenEitherEmpty(stored: Lists, generated: Option<Generated>)
    requires GenerationSucceeds(stored, generated)
    ensures var shown := ShownLists(stored, generated);
      && (EitherRelationEmpty(stored) ==>
            shown.synonyms == generated.value.synonyms.value && shown.antonyms == generated.value.antonyms.value)
      && (!EitherRelationEmpty(stored) ==> shown.synonyms == stored.synonyms && shown.antonyms == stored.antonyms)
  {
  }

  /**
   * The displayed lists are the items of the merged relations whose tag
   * matches: generated relations without a tag are shown in neither list.
   */
  lemma DisplayedRelations(stored: Lists, generated: Option<Generated>)
    requires GenerationSucceeds(stored, generated) && AnyEmpty(stored) && EitherRelationEmpty(stored)
    ensures var shown := ShownLists(stored, generated);
      var gen := generated.value;
      && WithTag(shown.synonyms + shown.antonyms, Synonym)
         == WithTag(gen.synonyms.value, Synonym) + WithTag(gen.antonyms.value, Synonym)
      && WithTag(shown.synonyms + shown.antonyms, Antonym)
         == WithTag(gen.synonyms.value, Antonym) + WithTag(gen.antonyms.value, Antonym)
  {
    var gen := generated.value;
    WithTagAppend(gen.synonyms.value, gen.antonyms.value, Synonym);
    WithTagAppend(gen.synonyms.value, gen.antonyms.value, Antonym);
  }

  /** Untagged generated relations leave both displayed lists empty. */
  lemma UntaggedGeneratedHidden(stored: Lists, generated: Option<Generated>)
    requires GenerationSucceeds(stored, generated) && AnyEmpty(stored) && EitherRelationEmpty(stored)
    requires var gen := generated.value;
      (forall i :: 0 <= i < |gen.synonyms.value| ==> gen.synonyms.value[i].relationType.None?)
      && (forall i :: 0 <= i < |gen.antonyms.value| ==> gen.antonyms.value[i].relationType.None?)
    ensures var shown := ShownLists(stored, generated);
      WithTag(shown.synonyms + shown.antonyms, Synonym) == [] && WithTag(shown.synonyms + shown.antonyms, Antonym) == []
  {
    var gen := generated.value;
    DisplayedRelations(stored, generated);
    WithTagDropsUntagged(gen.synonyms.value, Synonym);
    WithTagDropsUntagged(gen.antonyms.value, Synonym);
    WithTagDropsUntagged(gen.synonyms.value, Antonym);
    WithTagDropsUntagged(gen.antonyms.value, Antonym);
  }

  /** The inserts of a successful run, both for the page's word. */
  lemma InsertsOfShownRun(s: PageState, info: WordInfo, rest: seq<WordInfo>, url: string, generated: Option<Generated>)
    requires GenerationSucceeds(StoredLists(info), generated)
    ensures var stored := StoredLists(info);
      var r := Fetch(s, Some([info] + rest), Some(url), generated);
      var g := AnyEmpty(stored);
      var ex := if g && |stored.examples| == 0 then [InsertExamples(ExampleRows(s.wordId, generated.value.examples.value))] else [];
      var rel := if g && EitherRelationEmpty(stored)
                 then [InsertRelations(RelationRows(s.wordId, generated.value.synonyms.value, generated.value.antonyms.value))]
                 else [];
      r.inserts == ex + rel
  {
  }

  class WordDetailPage {
    var wordId: string
    var wordData: Option<WordData>
    var audioUrl: string
    var loading: bool
    var error: Option<LoadError>

    function State(): PageState
      reads this
    {
      PageState(wordId, wordData, audioUrl, loading, error)
    }

    constructor (wordId: string)
      ensures State() == PageState(wordId, None, "", true, None)
    {
      this.wordId := wordId;
      wordData, audioUrl, loading, error := None, "", true, None;
    }

    /** `fetchWordData`: its state changes, the inserts it attempts and whether it requests generation. */
    method FetchWordData(query: Option<seq<WordInfo>>, audio: Option<string>, generated: Option<Generated>)
      returns (inserts: seq<WordInsert>, requested: bool)
      modifies this
      ensures FetchStep(State(), inserts, requested) == Fetch(old(State()), query, audio, generated)
    {
      inserts, requested := [], false;
      if query.None? || |query.value| == 0 {
        error := Some(WordNotFound);
        loading := false;
        return;
      }
      var info := query.value[0];
      if audio.None? {
        error := Some(AudioFailed);
        loading := false;
        return;
      }
      audioUrl := audio.value;
      var stored := StoredLists(info);
      var examples, synonyms, antonyms := stored.examples, stored.synonyms, stored.antonyms;
      if |examples| == 0 || |synonyms| == 0 || |antonyms| == 0 {
        requested := true;
        if generated.None? {
          error := Some(GenerationFailed);
          loading := false;
          return;
        }
        var gen := generated.value;
        if |examples| == 0 {
          if gen.examples.None? {
            error := Some(MissingGenerated);
            loading := false;
            return;
          }
          inserts := inserts + [InsertExamples(ExampleRows(wordId, gen.examples.value))];
          examples := gen.examples.value;
        }
        if |synonyms| == 0 || |antonyms| == 0 {
          if gen.synonyms.None? || gen.antonyms.None? {
            error := Some(MissingGenerated);
            loading := false;
            return;
          }
          inserts := inserts + [InsertRelations(RelationRows(wordId, gen.synonyms.value, gen.antonyms.value))];
          synonyms := gen.synonyms.value;
          antonyms := gen.antonyms.value;
        }
      }
      wordData := Some(Merged(info, Lists(examples, synonyms, antonyms), None));
      loading := false;
    }
  }
}
