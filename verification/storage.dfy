/**
 * The browser's `localStorage` and the section store both scripts build on it.
 *
 * Storage is a mutable map from keys to strings; a missing key reads as null
 * (`None`). Writes are total: the model does not include a quota failure.
 */
module Storage {
  import opened Checklists
  import Json

  const SectionsKey: string := "novacheck_sections"
  const LogoKey: string := "novacheck_logo"

  class LocalStorage {
    var items: map<string, string>

    constructor (items: map<string, string>)
      ensures this.items == items
    {
      this.items := items;
    }

    /** `localStorage.getItem(key)`: null when nothing is stored under `key`. */
    function GetItem(key: string): (r: Option<string>)
      reads this
      ensures r.Some? <==> key in items
      ensures r.Some? ==> r.value == items[key]
    {
      if key in items then Some(items[key]) else None
    }

    /** `localStorage.setItem(key, value)`: that key and no other changes. */
    method SetItem(key: string, value: string)
      modifies this
      ensures items == old(items)[key := value]
    {
      items := items[key := value];
    }
  }

  /**
   * The value of `if (stored) return JSON.parse(stored)`: a checklist exactly
   * when something non-empty is stored under the sections key and it parses.
   */
  function StoredSections(items: map<string, string>): Option<Checklist> {
    if SectionsKey in items && items[SectionsKey] != "" then Json.Parse(items[SectionsKey]) else None
  }

  /** What `loadSections` returns. */
  function Loaded(items: map<string, string>, defaults: Checklist): Checklist {
    match StoredSections(items)
    case Some(c) => c
    case None => defaults
  }

  /** The storage contents after `loadSections`: defaults written back on fallback. */
  function AfterLoad(items: map<string, string>, defaults: Checklist): map<string, string> {
    if StoredSections(items).Some? then items else items[SectionsKey := Json.Stringify(defaults)]
  }

  /**
   * `loadSections`: return the stored checklist if there is a readable one;
   * otherwise write the defaults back and return them.
   */
  method LoadSections(store: LocalStorage, defaults: Checklist) returns (sections: Checklist)
    modifies store
    ensures sections == Loaded(old(store.items), defaults)
    ensures store.items == AfterLoad(old(store.items), defaults)
  {
    var stored := store.GetItem(SectionsKey);
    if stored.Some? && stored.value != "" {
      var parsed := Json.Parse(stored.value);
      if parsed.Some? {
        return parsed.value;
      }
    }
    store.SetItem(SectionsKey, Json.Stringify(defaults));
    sections := defaults;
  }

  /** `saveSections`: the whole checklist overwrites whatever was stored. */
  method SaveSections(store: LocalStorage, sections: Checklist)
    modifies store
    ensures store.items == old(store.items)[SectionsKey := Json.Stringify(sections)]
  {
    store.SetItem(SectionsKey, Json.Stringify(sections));
  }

  /** A checklist just saved is what the next load returns, without a write. */
  lemma LoadAfterSave(items: map<string, string>, c: Checklist, defaults: Checklist)
    ensures StoredSections(items[SectionsKey := Json.Stringify(c)]) == Some(c)
    ensures Loaded(items[SectionsKey := Json.Stringify(c)], defaults) == c
  {
    Json.RoundTrip(c);
  }

  /**
   * A load that finds a readable checklist returns it untouched and writes
   * nothing; one that does not returns the defaults and stores them.
   */
  lemma LoadCases(items: map<string, string>, defaults: Checklist)
    ensures StoredSections(items).Some? ==>
      Loaded(items, defaults) == StoredSections(items).value && AfterLoad(items, defaults) == items
    ensures StoredSections(items).None? ==>
      Loaded(items, defaults) == defaults && StoredSections(AfterLoad(items, defaults)) == Some(defaults)
    ensures forall k :: k in items && k != SectionsKey ==> k in AfterLoad(items, defaults) && AfterLoad(items, defaults)[k] == items[k]
  {
    Json.RoundTrip(defaults);
  }

  /**
   * Loading is idempotent: after one load, storage holds a readable checklist
   * equal to what that load returned, so a second load returns the same value
   * and writes nothing.
   */
  lemma LoadIdempotent(items: map<string, string>, defaults: Checklist)
    ensures StoredSections(AfterLoad(items, defaults)) == Some(Loaded(items, defaults))
    ensures AfterLoad(AfterLoad(items, defaults), defaults) == AfterLoad(items, defaults)
    ensures Loaded(AfterLoad(items, defaults), defaults) == Loaded(items, defaults)
  {
    Json.RoundTrip(defaults);
  }

  /**
   * An edit that loads, changes and saves leaves storage as if only the save
   * had happened: the default write-back of a fallback load is overwritten.
   */
  lemma SaveOverwritesLoad(items: map<string, string>, defaults: Checklist, c: Checklist)
    ensures AfterLoad(items, defaults)[SectionsKey := Json.Stringify(c)] == items[SectionsKey := Json.Stringify(c)]
  {
  }
}
