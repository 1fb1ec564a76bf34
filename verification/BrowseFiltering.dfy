/** Which memories a query shows, spelled out on the memories' own data, and the loops that find them. */
module BrowseFiltering {
  import opened Text
  import opened Wrappers
  import opened BrowseSearch
  import opened BrowseReadState
  import opened BrowseToggle
  import opened BrowseToggleMeaning

  ghost predicate Contains(text: string, part: string) {
    exists before, after :: text == before + part + after
  }

  /** The text contains the part after trimming and lower-casing. */
  ghost predicate Mentions(language: Language, text: string, part: string) {
    Contains(language.Fold(Trim(text)), part)
  }

  ghost predicate IsNamed(language: Language, items: seq<Item>, name: string) {
    exists i :: 0 <= i < |items| && language.Fold(Trim(items[i].name)) == name
  }

  /** Some flashback has the part in its text, or in what comes before or after it. */
  ghost predicate AnyMentions(language: Language, flashbacks: seq<Flashback>, part: string) {
    exists i :: 0 <= i < |flashbacks|
                && (Mentions(language, flashbacks[i].text, part) || Mentions(language, flashbacks[i].prefix, part)
                    || Mentions(language, flashbacks[i].suffix, part))
  }

  /** What each field asks of a memory: titles and addresses contain the value, tags and categories are it. */
  ghost predicate Accepts(language: Language, memory: Memory, field: Field, value: string) {
    match field
    case Title => Mentions(language, memory.title, value)
    case Url => Mentions(language, memory.url, value)
    case Tag => IsNamed(language, memory.tags, value)
    case Category => IsNamed(language, memory.categories, value)
    case Flashback => AnyMentions(language, memory.flashbacks, value)
  }

  /** A free term may be anywhere in what is known of a memory. */
  ghost predicate MentionsTerm(language: Language, memory: Memory, term: string) {
    || Mentions(language, memory.title, term) || Mentions(language, memory.url, term)
    || Mentions(language, memory.description, term)
    || (exists i :: 0 <= i < |memory.categories| && Mentions(language, memory.categories[i].name, term))
    || (exists i :: 0 <= i < |memory.tags| && Mentions(language, memory.tags[i].name, term))
    || AnyMentions(language, memory.flashbacks, term)
  }

  ghost predicate HasId(items: seq<Item>, id: string) {
    exists i :: 0 <= i < |items| && items[i].id == id
  }

  /** The memory has the ids, the read flag, all field filters and all free terms that a query asks for. */
  ghost predicate Selects(language: Language, memory: Memory, query: Query) {
    var search := language.Parse(query.q);
    && (query.category != "" ==> HasId(memory.categories, query.category))
    && (query.tag != "" ==> HasId(memory.tags, query.tag))
    && (query.flashback != "" ==> exists i :: 0 <= i < |memory.flashbacks| && memory.flashbacks[i].id == query.flashback)
    && search.readState != Both && (search.readState == Read ==> memory.read) && (search.readState == Unread ==> !memory.read)
    && (forall i :: 0 <= i < |search.fields| ==> Accepts(language, memory, search.fields[i].field, search.fields[i].value))
    && (forall i :: 0 <= i < |search.freeTerms| ==> MentionsTerm(language, memory, search.freeTerms[i]))
  }

  // The program's tests are these

  lemma IncludesContains(text: string, part: string)
    ensures Includes(text, part) <==> Contains(text, part)
  {
    if i :| 0 <= i <= |text| && part <= text[i..] {
      assert text == text[..i] + part + text[i + |part|..];
    }
    if before, after :| text == before + part + after {
      assert part <= text[|before|..];
    }
  }

  lemma FlashbackMeans(language: Language, flashback: Flashback, part: string)
    ensures FlashbackMentions(language, flashback, part)
       <==> Mentions(language, flashback.text, part) || Mentions(language, flashback.prefix, part)
            || Mentions(language, flashback.suffix, part)
  {
    hide Includes, Contains, Language.Fold, Trim;
    IncludesContains(language.Fold(Trim(flashback.text)), part);
    IncludesContains(language.Fold(Trim(flashback.prefix)), part);
    IncludesContains(language.Fold(Trim(flashback.suffix)), part);
  }

  lemma FlashbacksMean(language: Language, flashbacks: seq<Flashback>, part: string)
    ensures (exists flashback <- flashbacks :: FlashbackMentions(language, flashback, part))
       <==> AnyMentions(language, flashbacks, part)
  {
    hide FlashbackMentions, Mentions;
    forall i | 0 <= i < |flashbacks|
      ensures FlashbackMentions(language, flashbacks[i], part)
         <==> Mentions(language, flashbacks[i].text, part) || Mentions(language, flashbacks[i].prefix, part)
              || Mentions(language, flashbacks[i].suffix, part)
    {
      FlashbackMeans(language, flashbacks[i], part);
    }
  }

  lemma FieldMeans(language: Language, memory: Memory, field: Field, value: string)
    requires value != ""
    ensures MatchesField(language, memory, Filter(field, value)) <==> Accepts(language, memory, field, value)
  {
    hide Includes, Contains, Language.Fold, Trim, AnyMentions, FlashbackMentions;
    IncludesContains(language.Fold(Trim(memory.title)), value);
    IncludesContains(language.Fold(Trim(memory.url)), value);
    FlashbacksMean(language, memory.flashbacks, value);
  }

  lemma ItemsMention(language: Language, items: seq<Item>, term: string)
    ensures (exists item <- items :: Includes(language.Normalize(item.name), term))
       <==> exists i :: 0 <= i < |items| && Mentions(language, items[i].name, term)
  {
    hide Includes, Contains, Language.Fold, Trim;
    forall i | 0 <= i < |items|
      ensures Includes(language.Normalize(items[i].name), term) <==> Mentions(language, items[i].name, term)
    {
      IncludesContains(language.Fold(Trim(items[i].name)), term);
    }
  }

  lemma TermMeans(language: Language, memory: Memory, term: string)
    ensures MatchesTerm(language, memory, term) <==> MentionsTerm(language, memory, term)
  {
    hide Includes, Contains, Language.Fold, Trim, AnyMentions, FlashbackMentions;
    IncludesContains(language.Fold(Trim(memory.title)), term);
    IncludesContains(language.Fold(Trim(memory.url)), term);
    IncludesContains(language.Fold(Trim(memory.description)), term);
    ItemsMention(language, memory.categories, term);
    ItemsMention(language, memory.tags, term);
    FlashbacksMean(language, memory.flashbacks, term);
  }

  lemma {:induction false} NormalizedNotEmpty(language: Language, field: Field, values: seq<string>)
    ensures forall filter <- language.NormalizedFilters(field, values) :: filter.value != ""
  {
    hide Language.Normalize;
    if values != [] {
      NormalizedNotEmpty(language, field, values[1..]);
    }
  }

  lemma {:induction false} FiltersNotEmpty(language: Language, tokens: seq<Token>)
    ensures forall filter <- language.Filters(tokens) :: filter.value != ""
  {
    hide TokenValues, Language.NormalizedFilters;
    if tokens != [] {
      FiltersNotEmpty(language, tokens[1..]);
      if tokens[0].FieldToken? {
        NormalizedNotEmpty(language, tokens[0].field, TokenValues(tokens[0]));
      }
    }
  }

  lemma SearchMeans(language: Language, memory: Memory, query: Query)
    ensures HasIds(memory, query) && MatchesSearch(language, memory, language.Parse(query.q)) <==> Selects(language, memory, query)
  {
    hide MatchesField, MatchesTerm, Accepts, MentionsTerm, Language.Filters, Language.FreeTerms, Language.ReadStateOf,
      Language.Tokenize;
    var search := language.Parse(query.q);
    FiltersNotEmpty(language, language.Tokenize(query.q));
    forall i | 0 <= i < |search.fields|
      ensures MatchesField(language, memory, search.fields[i])
         <==> Accepts(language, memory, search.fields[i].field, search.fields[i].value)
    {
      FieldMeans(language, memory, search.fields[i].field, search.fields[i].value);
      assert search.fields[i] == Filter(search.fields[i].field, search.fields[i].value);
    }
    forall i | 0 <= i < |search.freeTerms|
      ensures MatchesTerm(language, memory, search.freeTerms[i]) <==> MentionsTerm(language, memory, search.freeTerms[i])
    {
      TermMeans(language, memory, search.freeTerms[i]);
    }
  }

  lemma {:induction false} FilterAppend(language: Language, a: seq<Memory>, b: seq<Memory>, query: Query)
    ensures FilterMemories(language, a + b, query) == FilterMemories(language, a, query) + FilterMemories(language, b, query)
  {
    hide HasIds, MatchesSearch, Language.Parse;
    if a == [] {
      assert a + b == b;
    } else {
      assert (a + b)[1..] == a[1..] + b;
      FilterAppend(language, a[1..], b, query);
    }
  }

  /** The memories shown are those that the query selects, in the order in which they come. */
  lemma {:induction false} FilterShows(language: Language, memories: seq<Memory>, memory: Memory, query: Query)
    ensures FilterMemories(language, [], query) == []
    ensures FilterMemories(language, memories + [memory], query)
         == if Selects(language, memory, query) then FilterMemories(language, memories, query) + [memory]
            else FilterMemories(language, memories, query)
  {
    hide HasIds, MatchesSearch, Language.Parse, Selects;
    FilterAppend(language, memories, [memory], query);
    SearchMeans(language, memory, query);
    var one := [memory];
    assert one[0] == memory && one[1..] == [];
    assert FilterMemories(language, one[1..], query) == [];
    var rest := FilterMemories(language, memories, query);
    assert rest + [] == rest;
  }

  // The loops

  method HasItem(items: seq<Item>, id: string) returns (found: bool)
    ensures found <==> exists item <- items :: item.id == id
  {
    for i := 0 to |items|
      invariant forall k :: 0 <= k < i ==> items[k].id != id
    {
      if items[i].id == id {
        return true;
      }
    }
    return false;
  }

  method IsShown(language: Language, memory: Memory, query: Query, search: Search) returns (shown: bool)
    ensures shown <==> HasIds(memory, query) && MatchesSearch(language, memory, search)
  {
    hide MatchesField, MatchesTerm;
    if query.category != "" {
      var found := HasItem(memory.categories, query.category);
      if !found {
        return false;
      }
    }
    if query.tag != "" {
      var found := HasItem(memory.tags, query.tag);
      if !found {
        return false;
      }
    }
    if query.flashback != "" && !exists flashback <- memory.flashbacks :: flashback.id == query.flashback {
      return false;
    }
    if search.readState == Both || (search.readState == Read && !memory.read) || (search.readState == Unread && memory.read) {
      return false;
    }
    for i := 0 to |search.fields|
      invariant forall k :: 0 <= k < i ==> MatchesField(language, memory, search.fields[k])
    {
      if !MatchesField(language, memory, search.fields[i]) {
        return false;
      }
    }
    for i := 0 to |search.freeTerms|
      invariant forall k :: 0 <= k < i ==> MatchesTerm(language, memory, search.freeTerms[k])
    {
      if !MatchesTerm(language, memory, search.freeTerms[i]) {
        return false;
      }
    }
    return true;
  }

  method FilterBrowseMemories(language: Language, memories: seq<Memory>, query: Query) returns (kept: seq<Memory>)
    ensures kept == FilterMemories(language, memories, query)
  {
    hide HasIds, MatchesSearch, Language.Parse, Selects;
    var search := language.Parse(query.q);
    kept := [];
    for i := 0 to |memories|
      invariant kept == FilterMemories(language, memories[..i], query)
    {
      var shown := IsShown(language, memories[i], query, search);
      SearchMeans(language, memories[i], query);
      FilterShows(language, memories[..i], memories[i], query);
      assert memories[..i + 1] == memories[..i] + [memories[i]];
      if shown {
        kept := kept + [memories[i]];
      }
    }
    assert memories[..|memories|] == memories;
  }

  // Toggling a filter narrows or widens what is shown

  function AcceptedBy(language: Language, memories: seq<Memory>, filter: Filter): seq<Memory> {
    if memories == [] then []
    else (if MatchesField(language, memories[0], filter) then [memories[0]] else []) + AcceptedBy(language, memories[1..], filter)
  }

  lemma AcceptedMeans(language: Language, memory: Memory, filter: Filter)
    requires filter.value != ""
    ensures AcceptedBy(language, [memory], filter) == if Accepts(language, memory, filter.field, filter.value) then [memory] else []
  {
    hide MatchesField, Accepts;
    FieldMeans(language, memory, filter.field, filter.value);
    assert filter == Filter(filter.field, filter.value);
    assert [memory][1..] == [];
  }

  lemma {:induction false} OtherFiltersAre(filters: seq<Filter>, field: Field, filter: Filter)
    ensures filter in OtherFilters(filters, field) <==> filter in filters && filter.field != field
  {
    if filters != [] {
      OtherFiltersAre(filters[1..], field, filter);
      assert filters == [filters[0]] + filters[1..];
    }
  }

  /** One more value for a field is one more test. */
  lemma OneMoreFilter(language: Language, memory: Memory, before: Search, after: Search, field: Field, value: string)
    requires SameElsewhere(before, after, field)
    requires ValueSet(after.fields, field) == ValueSet(before.fields, field) + {value}
    ensures MatchesSearch(language, memory, after)
       <==> MatchesSearch(language, memory, before) && MatchesField(language, memory, Filter(field, value))
  {
    hide MatchesField, MatchesTerm, OtherFilters;
    forall filter: Filter
      ensures filter in after.fields <==> filter in before.fields || filter == Filter(field, value)
    {
      OtherFiltersAre(before.fields, field, filter);
      OtherFiltersAre(after.fields, field, filter);
      InValueSet(before.fields, filter);
      InValueSet(after.fields, filter);
    }
  }

  lemma InValueSet(filters: seq<Filter>, filter: Filter)
    ensures filter in filters <==> filter.value in ValueSet(filters, filter.field)
  {
    assert filter == Filter(filter.field, filter.value);
  }

  lemma {:induction false} FilterNarrows(language: Language, memories: seq<Memory>, before: Query, after: Query, filter: Filter)
    requires before.(q := "") == after.(q := "")
    requires forall memory ::
               MatchesSearch(language, memory, language.Parse(after.q))
               <==> MatchesSearch(language, memory, language.Parse(before.q)) && MatchesField(language, memory, filter)
    ensures FilterMemories(language, memories, after) == AcceptedBy(language, FilterMemories(language, memories, before), filter)
  {
    hide Language.Parse, MatchesSearch, MatchesField;
    if memories != [] {
      FilterNarrows(language, memories[1..], before, after, filter);
      var rest := FilterMemories(language, memories[1..], before);
      assert HasIds(memories[0], before) <==> HasIds(memories[0], after);
      assert ([memories[0]] + rest)[1..] == rest;
      assert [] + rest == rest;
    }
  }

  /**
   Toggling a filter on shows, of the memories shown before, those that the new filter accepts; and
   toggling it off again is the other way round.
   */
  lemma ToggleNarrows(language: Language, memories: seq<Memory>, query: Query, field: Field, value: string)
    requires language.Valid() && Trim(value) != "" && CanToggle(language, query.q, field, value)
    ensures var toggled := query.(q := language.Toggle(query.q, field, value));
            var filter := Filter(field, language.Normalize(value));
            if filter.value !in ValueSet(language.Parse(query.q).fields, field) then
              FilterMemories(language, memories, toggled) == AcceptedBy(language, FilterMemories(language, memories, query), filter)
            else
              FilterMemories(language, memories, query) == AcceptedBy(language, FilterMemories(language, memories, toggled), filter)
  {
    hide Language.Parse, Language.Toggle, Language.Normalize, MatchesSearch, MatchesField, ValueSet, SameElsewhere, CanToggle, Trim;
    var toggled := query.(q := language.Toggle(query.q, field, value));
    var before, after := language.Parse(query.q), language.Parse(toggled.q);
    var target := language.Normalize(value);
    ToggleChangesOneValue(language, query.q, field, value);
    if target !in ValueSet(before.fields, field) {
      forall memory
        ensures MatchesSearch(language, memory, after)
           <==> MatchesSearch(language, memory, before) && MatchesField(language, memory, Filter(field, target))
      {
        OneMoreFilter(language, memory, before, after, field, target);
      }
      FilterNarrows(language, memories, query, toggled, Filter(field, target));
    } else {
      SameBackwards(before, after, field);
      assert ValueSet(before.fields, field) == ValueSet(after.fields, field) + {target};
      forall memory
        ensures MatchesSearch(language, memory, before)
           <==> MatchesSearch(language, memory, after) && MatchesField(language, memory, Filter(field, target))
      {
        OneMoreFilter(language, memory, after, before, field, target);
      }
      FilterNarrows(language, memories, toggled, query, Filter(field, target));
    }
  }

  lemma SameBackwards(before: Search, after: Search, field: Field)
    requires SameElsewhere(before, after, field)
    ensures SameElsewhere(after, before, field)
  {
  }
}
