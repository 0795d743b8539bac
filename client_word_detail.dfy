/**
 * The loading logic of src/components/word/ClientWordDetail.tsx. The
 * component's state and its `hasGeneratedData` ref are the fields of a
 * class; the `[wordId]` effect resets the generation flags and then runs
 * `fetchWordData`, whose database and network answers are inputs.
 */
module ClientWordDetail {
  import opened Wrappers
  import opened WordRows

  /** The message `fetchWordData` stores when it throws. */
  datatype LoadError =
    | WordNotFound      // the `words` query failed or found nothing
    | GenerationFailed  // the generation request or its JSON failed
    | MissingGenerated  // a generated list needed for an insert is missing

  datatype PageState = PageState(
    wordId: string,
    wordData: Option<WordData>,
    loading: bool,
    error: Option<LoadError>,
    isGeneratingData: bool,
    isGeneratingExamples: bool,
    hasAttemptedGeneration: bool,
    hasGeneratedData: bool)

  /** A run of `fetchWordData`: the new state, the inserts attempted, and whether generation was requested. */
  datatype FetchStep = FetchStep(state: PageState, inserts: seq<WordInsert>, requested: bool)

  /** `!!(user && wordInfo.bookmarks)`: any joined bookmark list, even an empty one, counts. */
  predicate IsBookmarked(signedIn: bool, info: WordInfo)
  {
    signedIn && info.bookmarks.Some?
  }

  /** The guard of the generation block. */
  predicate ShouldGenerate(hasGeneratedData: bool, stored: Lists)
  {
    !hasGeneratedData && AnyEmpty(stored)
  }

  predicate BothRelationsEmpty(stored: Lists)
  {
    |stored.synonyms| == 0 && |stored.antonyms| == 0
  }

  /** The start of the `[wordId]` effect. */
  function Begin(s: PageState, wordId: string): PageState
  {
    s.(wordId := wordId, hasGeneratedData := false, hasAttemptedGeneration := false, isGeneratingExamples := false)
  }

  /** The word is shown with the given lists and loading ends. */
  function Show(s: PageState, info: WordInfo, lists: Lists, signedIn: bool, inserts: seq<WordInsert>,
                requested: bool): FetchStep
  {
    FetchStep(s.(wordData := Some(Merged(info, lists, Some(IsBookmarked(signedIn, info)))), loading := false),
              inserts, requested)
  }

  /** `fetchWordData`, with `getUser`, the `words` query and the generation request as inputs. */
  function Fetch(s: PageState, signedIn: bool, query: Option<WordInfo>, generated: Option<Generated>): FetchStep
  {
    if query.None? then FetchStep(s.(error := Some(WordNotFound), loading := false), [], false)
    else if !ShouldGenerate(s.hasGeneratedData, StoredLists(query.value)) then
      Show(s, query.value, StoredLists(query.value), signedIn, [], false)
    else
      var b := GenerationBlock(s.(hasGeneratedData := true, isGeneratingData := true), StoredLists(query.value), generated);
      if b.result.Threw? then FetchStep(b.state.(error := Some(b.result.error), loading := false), b.inserts, true)
      else Show(b.state, query.value, b.result.lists, signedIn, b.inserts, true)
  }

  /** The inputs under which the generation block runs to its end instead of throwing. */
  predicate GenerationSucceeds(hasGeneratedData: bool, stored: Lists, generated: Option<Generated>)
  {
    ShouldGenerate(hasGeneratedData, stored) ==>
      && generated.Some?
      && (|stored.examples| == 0 ==> generated.value.examples.Some?)
      && (BothRelationsEmpty(stored) ==> generated.value.synonyms.Some? && generated.value.antonyms.Some?)
  }

  /** How the generation block ended: with the lists to show, or by throwing. */
  datatype BlockResult = Finished(lists: Lists) | Threw(error: LoadError)

  datatype Block = Block(state: PageState, result: BlockResult, inserts: seq<WordInsert>)

  /**
   * The generation block, entered with the ref and `isGeneratingData` set:
   * the request, then the examples, then the relations; a missing list
   * needed for an insert throws before that insert.
   */
  function GenerationBlock(s: PageState, stored: Lists, generated: Option<Generated>): Block
  {
    if generated.None? then Block(s, Threw(GenerationFailed), [])
    else if |stored.examples| == 0 && generated.value.examples.None? then
      Block(s.(isGeneratingExamples := true), Threw(MissingGenerated), [])
    else
      var s2 := if |stored.examples| == 0 then s.(isGeneratingExamples := false) else s;
      var gen := generated.value;
      if BothRelationsEmpty(stored) && (gen.synonyms.None? || gen.antonyms.None?) then
        Block(s2, Threw(MissingGenerated), ExampleInserts(s.wordId, stored, gen))
      else
        Block(s2.(isGeneratingData := false, hasAttemptedGeneration := true), Finished(ShownLists(false, stored, generated)),
              ExampleInserts(s.wordId, stored, gen) + RelationInserts(s.wordId, stored, gen))
  }

  /** The examples insert, attempted when the stored examples are empty. */
  function ExampleInserts(wordId: string, stored: Lists, gen: Generated): seq<WordInsert>
    requires |stored.examples| == 0 ==> gen.examples.Some?
  {
    if |stored.examples| == 0 then [InsertExamples(ExampleRows(wordId, gen.examples.value))] else []
  }

  /** The relations insert, attempted when both stored relation lists are empty. */
  function RelationInserts(wordId: string, stored: Lists, gen: Generated): seq<WordInsert>
    requires BothRelationsEmpty(stored) ==> gen.synonyms.Some? && gen.antonyms.Some?
  {
    if BothRelationsEmpty(stored) then [InsertRelations(RelationRows(wordId, gen.synonyms.value, gen.antonyms.value))]
    else []
  }

  /**
   * The lists a successful run shows: the stored ones, with the examples
   * replaced when they were empty and the relations replaced, tagged, when
   * both were empty.
   */
  function ShownLists(hasGeneratedData: bool, stored: Lists, generated: Option<Generated>): Lists
    requires GenerationSucceeds(hasGeneratedData, stored, generated)
  {
    if !ShouldGenerate(hasGeneratedData, stored) then stored
    else
      var gen := generated.value;
      Lists(if |stored.examples| == 0 then gen.examples.value else stored.examples,
            if BothRelationsEmpty(stored) then Retag(gen.synonyms.value, Synonym) else stored.synonyms,
            if BothRelationsEmpty(stored) then Retag(gen.antonyms.value, Antonym) else stored.antonyms)
  }

  // ---------------------------------------------------------------------------
  // Properties

  /** A missing word sets the not-found error, ends loading and does nothing else. */
  lemma NotFound(s: PageState, signedIn: bool, generated: Option<Generated>)
    ensures Fetch(s, signedIn, None, generated)
         == FetchStep(s.(error := Some(WordNotFound), loading := false), [], false)
  {
  }

  /**
   * Generation is requested exactly when it has not run since the effect
   * started and some stored list is empty; afterwards the ref is set exactly
   * when it was set before or generation was requested.
   */
  lemma GenerationRequestedExactly(s: PageState, signedIn: bool, info: WordInfo, generated: Option<Generated>)
    ensures var r := Fetch(s, signedIn, Some(info), generated);
      && (r.requested <==> !s.hasGeneratedData && AnyEmpty(StoredLists(info)))
      && (r.state.hasGeneratedData <==> s.hasGeneratedData || r.requested)
  {
  }

  /** Within one effect run, a second fetch never requests generation again. */
  lemma GenerationAtMostOnce(s: PageState, signedIn: bool, info: WordInfo, generated: Option<Generated>,
                             signedIn2: bool, query2: Option<WordInfo>, generated2: Option<Generated>)
    requires Fetch(s, signedIn, Some(info), generated).requested
    ensures !Fetch(Fetch(s, signedIn, Some(info), generated).state, signedIn2, query2, generated2).requested
  {
    GenerationRequestedExactly(s, signedIn, info, generated);
    GuardBlocks(Fetch(s, signedIn, Some(info), generated).state, signedIn2, query2, generated2);
  }

  /** With the ref set, a fetch does not request generation. */
  lemma GuardBlocks(s: PageState, signedIn: bool, query: Option<WordInfo>, generated: Option<Generated>)
    requires s.hasGeneratedData
    ensures !Fetch(s, signedIn, query, generated).requested
  {
  }

  /** A new effect run clears the ref, so the next fetch may generate again. */
  lemma BeginResets(s: PageState, wordId: string, signedIn: bool, info: WordInfo, generated: Option<Generated>)
    requires AnyEmpty(StoredLists(info))
    ensures Fetch(Begin(s, wordId), signedIn, Some(info), generated).requested
  {
  }

  /**
   * A found word is shown exactly when the generation it needs succeeds;
   * then the shown lists are the merge and the bookmark flag is the join's.
   */
  lemma ShownMerge(s: PageState, signedIn: bool, info: WordInfo, generated: Option<Generated>)
    requires GenerationSucceeds(s.hasGeneratedData, StoredLists(info), generated)
    ensures var r := Fetch(s, signedIn, Some(info), generated);
      && r.state.wordData == Some(Merged(info, ShownLists(s.hasGeneratedData, StoredLists(info), generated),
                                         Some(IsBookmarked(signedIn, info))))
      && !r.state.loading && r.state.error == s.error
      && (r.requested ==> !r.state.isGeneratingData && r.state.hasAttemptedGeneration)
  {
  }

  /** When the generation it needs fails, the error is set, the old word stays and the spinner stays on. */
  lemma FailedGeneration(s: PageState, signedIn: bool, info: WordInfo, generated: Option<Generated>)
    requires !GenerationSucceeds(s.hasGeneratedData, StoredLists(info), generated)
    ensures var r := Fetch(s, signedIn, Some(info), generated);
      && r.state.error.Some? && r.state.error != Some(WordNotFound)
      && r.state.wordData == s.wordData && !r.state.loading
      && r.requested && r.state.isGeneratingData && r.state.hasAttemptedGeneration == s.hasAttemptedGeneration
  {
  }

  /** Examples are replaced by the generated ones exactly when the stored list is empty. */
  lemma ExamplesReplacedWhenEmpty(hasGeneratedData: bool, stored: Lists, generated: Option<Generated>)
    requires GenerationSucceeds(hasGeneratedData, stored, generated) && ShouldGenerate(hasGeneratedData, stored)
    ensures var shown := ShownLists(hasGeneratedData, stored, generated);
      (|stored.examples| == 0 ==> shown.examples == generated.value.examples.value)
      && (|stored.examples| > 0 ==> shown.examples == stored.examples)
  {
  }

  /**
   * Relations are replaced only when both stored lists are empty, and then by
   * the generated lists tagged synonym and antonym.
   */
  lemma RelationsReplacedWhenBothEmpty(hasGeneratedData: bool, stored: Lists, generated: Option<Generated>)
    requires GenerationSucceeds(hasGeneratedData, stored, generated)
    ensures var shown := ShownLists(hasGeneratedData, stored, generated);
      && (ShouldGenerate(hasGeneratedData, stored) && BothRelationsEmpty(stored) ==>
            shown.synonyms == Retag(generated.value.synonyms.value, Synonym)
            && shown.antonyms == Retag(generated.value.antonyms.value, Antonym))
      && (!(ShouldGenerate(hasGeneratedData, stored) && BothRelationsEmpty(stored)) ==>
            shown.synonyms == stored.synonyms && shown.antonyms == stored.antonyms)
  {
  }

  /**
   * The display filters of the rendered page give back exactly the shown
   * synonyms and antonyms, whether stored or generated.
   */
  lemma DisplayedRelations(s: PageState, signedIn: bool, info: WordInfo, generated: Option<Generated>)
    requires GenerationSucceeds(s.hasGeneratedData, StoredLists(info), generated)
    ensures var shown := ShownLists(s.hasGeneratedData, StoredLists(info), generated);
      var word := Fetch(s, signedIn, Some(info), generated).state.wordData.value;
      WithTag(word.relations, Synonym) == shown.synonyms && WithTag(word.relations, Antonym) == shown.antonyms
  {
    ShownMerge(s, signedIn, info, generated);
    var stored := StoredLists(info);
    var shown := ShownLists(s.hasGeneratedData, stored, generated);
    if ShouldGenerate(s.hasGeneratedData, stored) && BothRelationsEmpty(stored) {
      RetaggedRoundTrip(generated.value.synonyms.value, generated.value.antonyms.value);
    } else {
      StoredRoundTrip(info);
    }
  }

  /**
   * The inserts of a successful run: the examples insert exactly when the
   * examples were replaced, the relations insert exactly when the relations
   * were, both for the page's word.
   */
  lemma InsertsOfShownRun(s: PageState, signedIn: bool, info: WordInfo, generated: Option<Generated>)
    requires GenerationSucceeds(s.hasGeneratedData, StoredLists(info), generated)
    ensures var stored := StoredLists(info);
      var r := Fetch(s, signedIn, Some(info), generated);
      var g := ShouldGenerate(s.hasGeneratedData, stored);
      var ex := if g && |stored.examples| == 0 then [InsertExamples(ExampleRows(s.wordId, generated.value.examples.value))] else [];
      var rel := if g && BothRelationsEmpty(stored)
                 then [InsertRelations(RelationRows(s.wordId, generated.value.synonyms.value, generated.value.antonyms.value))]
                 else [];
      r.inserts == ex + rel
  {
  }

  /** A signed-in user sees the word as bookmarked whenever the bookmark join is present, even empty. */
  lemma BookmarkedWhenJoined(s: PageState, signedIn: bool, info: WordInfo, generated: Option<Generated>)
    requires GenerationSucceeds(s.hasGeneratedData, StoredLists(info), generated)
    ensures Fetch(s, signedIn, Some(info), generated).state.wordData.value.isBookmarked
         == Some(signedIn && info.bookmarks.Some?)
  {
    ShownMerge(s, signedIn, info, generated);
  }

  class WordDetailPage {
    var wordId: string
    var wordData: Option<WordData>
    var loading: bool
    var error: Option<LoadError>
    var isGeneratingData: bool
    var isGeneratingExamples: bool
    var hasAttemptedGeneration: bool
    /** The `hasGeneratedData` ref. */
    var hasGeneratedData: bool

    function State(): PageState
      reads this
    {
      PageState(wordId, wordData, loading, error, isGeneratingData, isGeneratingExamples, hasAttemptedGeneration,
                hasGeneratedData)
    }

    /** The first render: the `useState` and `useRef` initial values. */
    constructor (wordId: string)
      ensures State() == PageState(wordId, None, true, None, false, false, false, false)
    {
      this.wordId := wordId;
      wordData, loading, error := None, true, None;
      isGeneratingData, isGeneratingExamples, hasAttemptedGeneration, hasGeneratedData := false, false, false, false;
    }

    /** The start of the `[wordId]` effect. */
    method BeginEffect(newWordId: string)
      modifies this
      ensures State() == Begin(old(State()), newWordId)
    {
      wordId := newWordId;
      hasGeneratedData := false;
      hasAttemptedGeneration := false;
      isGeneratingExamples := false;
    }

    /** `fetchWordData`: its state changes, the inserts it attempts and whether it requests generation. */
    method FetchWordData(signedIn: bool, query: Option<WordInfo>, generated: Option<Generated>)
      returns (inserts: seq<WordInsert>, requested: bool)
      modifies this
      ensures FetchStep(State(), inserts, requested) == Fetch(old(State()), signedIn, query, generated)
    {
      if query.None? {
        error := Some(WordNotFound);
        loading := false;
        return [], false;
      }
      var info := query.value;
      var stored := StoredLists(info);
      if !hasGeneratedData && (|stored.examples| == 0 || |stored.synonyms| == 0 || |stored.antonyms| == 0) {
        inserts := GenerateAndShow(signedIn, info, generated);
        requested := true;
      } else {
        ShowWord(signedIn, info, stored);
        inserts, requested := [], false;
      }
    }

    /** The part of `fetchWordData` from the generation guard on, when the guard holds. */
    method GenerateAndShow(signedIn: bool, info: WordInfo, generated: Option<Generated>) returns (inserts: seq<WordInsert>)
      requires ShouldGenerate(hasGeneratedData, StoredLists(info))
      modifies this
      ensures FetchStep(State(), inserts, true) == Fetch(old(State()), signedIn, Some(info), generated)
    {
      hasGeneratedData := true;
      isGeneratingData := true;
      var result;
      result, inserts := RunGeneration(StoredLists(info), generated);
      if result.Threw? {
        error := Some(result.error);
        loading := false;
        return;
      }
      ShowWord(signedIn, info, result.lists);
    }

    /** The end of `fetchWordData`: the merged word is stored and loading ends. */
    method ShowWord(signedIn: bool, info: WordInfo, lists: Lists)
      modifies this
      ensures State() == Show(old(State()), info, lists, signedIn, [], false).state
    {
      wordData := Some(Merged(info, lists, Some(signedIn && info.bookmarks.Some?)));
      loading := false;
    }

    /** The generation block of `fetchWordData`, up to the point where it ends or throws. */
    method RunGeneration(stored: Lists, generated: Option<Generated>) returns (result: BlockResult, inserts: seq<WordInsert>)
      modifies this
      ensures Block(State(), result, inserts) == GenerationBlock(old(State()), stored, generated)
    {
      inserts := [];
      if generated.None? {
        return Threw(GenerationFailed), [];
      }
      var gen := generated.value;
      var examples, synonyms, antonyms := stored.examples, stored.synonyms, stored.antonyms;
      if |examples| == 0 {
        isGeneratingExamples := true;
        if gen.examples.None? {
          return Threw(MissingGenerated), [];
        }
        inserts := inserts + [InsertExamples(ExampleRows(wordId, gen.examples.value))];
        examples := gen.examples.value;
        isGeneratingExamples := false;
      }
      if |synonyms| == 0 && |antonyms| == 0 {
        if gen.synonyms.None? || gen.antonyms.None? {
          return Threw(MissingGenerated), inserts;
        }
        inserts := inserts + [InsertRelations(RelationRows(wordId, gen.synonyms.value, gen.antonyms.value))];
        synonyms := Retag(gen.synonyms.value, Synonym);
        antonyms := Retag(gen.antonyms.value, Antonym);
      }
      isGeneratingData := false;
      hasAttemptedGeneration := true;
      result := Finished(Lists(examples, synonyms, antonyms));
    }
  }
}
