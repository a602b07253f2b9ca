/** The settings panel's two updates. Each builds a new settings value from the
    old one: choosing a language replaces only the language, removing a saved
    location drops every location carrying its id. */
module SettingsPanel {
  import opened Types

  /** The languages the panel offers. */
  function OfferedLanguages(): (r: seq<Language>)
    ensures |r| == 3
    ensures forall i, j :: 0 <= i < j < |r| ==> r[i] != r[j]
    ensures forall i :: 0 <= i < |r| ==> LanguageCode(r[i]) in {"es", "en", "de"}
  {
    [Es, En, De]
  }

  /** Every language of the closed set is offered. */
  lemma OfferedLanguagesComplete(l: Language)
    ensures l in OfferedLanguages()
  {
    match l
    case Es => assert OfferedLanguages()[0] == Es;
    case En => assert OfferedLanguages()[1] == En;
    case De => assert OfferedLanguages()[2] == De;
  }

  /** Choosing a language: the new settings carry it and keep the same locations. */
  function WithLanguage(settings: Settings, language: Language): (r: Settings)
    ensures r.language == language
    ensures r.locations == settings.locations
  {
    settings.(language := language)
  }

  /** The locations whose id differs from `id`, in their original order. */
  function RemoveById(locations: seq<SavedLocation>, id: string): (r: seq<SavedLocation>)
    ensures forall l :: l in r ==> l in locations && l.id != id
    ensures |r| <= |locations|
  {
    if locations == [] then []
    else if locations[0].id != id then [locations[0]] + RemoveById(locations[1..], id)
    else RemoveById(locations[1..], id)
  }

  /** Removing a location: every entry with its id goes, the language stays. */
  function RemoveLocation(settings: Settings, location: SavedLocation): (r: Settings)
    ensures r.language == settings.language
    ensures r.locations == RemoveById(settings.locations, location.id)
    ensures forall l :: l in r.locations ==> l in settings.locations && l.id != location.id
  {
    settings.(locations := RemoveById(settings.locations, location.id))
  }

  /** `a` is obtained from `b` by deleting elements, keeping the order of the rest. */
  predicate IsSubsequence<T(==)>(a: seq<T>, b: seq<T>)
    decreases |b|
  {
    a == [] ||
    (b != [] && ((a[0] == b[0] && IsSubsequence(a[1..], b[1..])) || IsSubsequence(a, b[1..])))
  }

  /** Removal keeps the surviving locations in their original relative order. */
  lemma {:induction false} RemoveIsSubsequence(locations: seq<SavedLocation>, id: string)
    ensures IsSubsequence(RemoveById(locations, id), locations)
  {
    if locations != [] {
      RemoveIsSubsequence(locations[1..], id);
      var rest := RemoveById(locations[1..], id);
      if locations[0].id != id {
        assert RemoveById(locations, id) == [locations[0]] + rest;
        assert ([locations[0]] + rest)[1..] == rest;
      }
    }
  }

  /** Removal keeps every other location, each as often as it occurred. */
  lemma {:induction false} RemoveKeepsOthers(locations: seq<SavedLocation>, id: string, l: SavedLocation)
    requires l.id != id
    ensures multiset(RemoveById(locations, id))[l] == multiset(locations)[l]
  {
    if locations != [] {
      RemoveKeepsOthers(locations[1..], id, l);
      assert locations == [locations[0]] + locations[1..];
    }
  }

  /** Removal of a present id shrinks the list. */
  lemma {:induction false} RemovePresentShrinks(locations: seq<SavedLocation>, id: string)
    requires exists l :: l in locations && l.id == id
    ensures |RemoveById(locations, id)| < |locations|
  {
    if locations[0].id != id {
      var l :| l in locations && l.id == id;
      assert l in locations[1..];
      RemovePresentShrinks(locations[1..], id);
    }
  }

  /** Removing an id nobody carries leaves the list as it was. */
  lemma {:induction false} RemoveAbsent(locations: seq<SavedLocation>, id: string)
    requires forall l :: l in locations ==> l.id != id
    ensures RemoveById(locations, id) == locations
  {
    if locations != [] {
      RemoveAbsent(locations[1..], id);
      assert locations == [locations[0]] + locations[1..];
    }
  }

  /** Removing the same location twice is removing it once. */
  lemma RemoveIdempotent(settings: Settings, location: SavedLocation)
    ensures RemoveLocation(RemoveLocation(settings, location), location) == RemoveLocation(settings, location)
  {
    RemoveAbsent(RemoveById(settings.locations, location.id), location.id);
  }

  /** The two updates touch disjoint fields, so their order does not matter. */
  lemma UpdatesCommute(settings: Settings, language: Language, location: SavedLocation)
    ensures RemoveLocation(WithLanguage(settings, language), location)
         == WithLanguage(RemoveLocation(settings, location), language)
  {
  }
}
