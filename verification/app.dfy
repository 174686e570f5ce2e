/**
 * The store and back-office handlers of app.js.
 *
 * Every handler here reads the checklist afresh from storage, changes that
 * copy and saves the whole of it; all but the rename then draw the list
 * again. The indices a handler carries were fixed when the list was drawn.
 */
module App {
  import opened Checklists
  import Json
  import Storage

  /** The four sections installed on first use. */
  function DefaultSections(): (r: Checklist)
    ensures |r| == 4
    ensures r[0].name == "Chaufferies" && |r[0].tasks| == 3
    ensures r[1].name == "Contrôle général" && |r[1].tasks| == 3
    ensures r[2].name == "Piscines et spa" && |r[2].tasks| == 3
    ensures r[3].name == "Pompes de relevage" && |r[3].tasks| == 2
  {
    [ Section("Chaufferies", [
        "Contrôler la chaufferie 1",
        "Contrôler la chaufferie 2",
        "Contrôler la chaufferie 3"]),
      Section("Contrôle général", [
        "Inspection des parties communes",
        "Vérifier l'éclairage de sécurité",
        "Contrôler des alarmes incendie"]),
      Section("Piscines et spa", [
        "Contrôler la piscine extérieure",
        "Relever la température de la piscine extérieure",
        "Prélèvement d'un échantillon d'eau de la piscine du spa"]),
      Section("Pompes de relevage", [
        "Vérifier la pompe de relevage 1",
        "Vérifier la pompe de relevage 2"])
    ]
  }

  /**
   * The script's global state: the browser storage it reads and writes, and
   * its `defaultSections` constant.
   */
  class Page {
    const store: Storage.LocalStorage
    const defaults: Checklist := DefaultSections()

    constructor (store: Storage.LocalStorage)
      ensures this.store == store
    {
      this.store := store;
    }

    /** The checklist app.js sees in the storage contents `items`. */
    function Current(items: map<string, string>): Checklist {
      Storage.Loaded(items, defaults)
    }

    /** `loadSections` with app.js's defaults. */
    method LoadSections() returns (sections: Checklist)
      modifies store
      ensures sections == Current(old(store.items))
      ensures store.items == Storage.AfterLoad(old(store.items), defaults)
      ensures Storage.StoredSections(old(store.items)).None? ==> sections == DefaultSections()
    {
      sections := Storage.LoadSections(store, defaults);
    }

    /** `getLogo`: the stored logo, or null when none or an empty one is stored. */
    function GetLogo(): (r: Option<string>)
      reads store
      ensures r.Some? <==> Storage.LogoKey in store.items && store.items[Storage.LogoKey] != ""
      ensures r.Some? ==> r.value == store.items[Storage.LogoKey]
    {
      var stored := store.GetItem(Storage.LogoKey);
      if stored.Some? && stored.value != "" then stored else None
    }

    /**
     * `renderAdmin`, as far as state goes: it loads the checklist to draw the
     * back-office list, which writes the defaults back when storage holds no
     * readable checklist.
     */
    method RenderAdmin()
      modifies store
      ensures store.items == Storage.AfterLoad(old(store.items), defaults)
    {
      var drawn := LoadSections();
    }

    /** The `onchange` handler of a task's text field: rename the task. */
    method OnTaskRenamed(sIndex: nat, tIndex: nat, value: string)
      requires sIndex < |Current(store.items)| && tIndex <= |Current(store.items)[sIndex].tasks|
      modifies store
      ensures store.items == old(store.items)[Storage.SectionsKey :=
        Json.Stringify(RenameTask(Current(old(store.items)), sIndex, tIndex, value))]
      ensures Current(store.items) == RenameTask(Current(old(store.items)), sIndex, tIndex, value)
    {
      var updated := LoadSections();
      var tasks := updated[sIndex].tasks;
      if tIndex < |tasks| {
        tasks := tasks[tIndex := value];
      } else {
        tasks := tasks + [value];
      }
      updated := updated[sIndex := updated[sIndex].(tasks := tasks)];
      Storage.SaveSections(store, updated);
      Storage.SaveOverwritesLoad(old(store.items), defaults, updated);
      Storage.LoadAfterSave(old(store.items), updated, defaults);
    }

    /** The "Supprimer" button of a task: remove task `taskIndex` of section `secIndex`. */
    method OnTaskDeleted(secIndex: nat, taskIndex: nat)
      requires secIndex < |Current(store.items)|
      modifies store
      ensures store.items == old(store.items)[Storage.SectionsKey :=
        Json.Stringify(DeleteTask(Current(old(store.items)), secIndex, taskIndex))]
      ensures Current(store.items) == DeleteTask(Current(old(store.items)), secIndex, taskIndex)
    {
      var updated := LoadSections();
      var tasks := updated[secIndex].tasks;
      if taskIndex < |tasks| {
        tasks := tasks[..taskIndex] + tasks[taskIndex + 1..];
      }
      updated := updated[secIndex := updated[secIndex].(tasks := tasks)];
      Storage.SaveSections(store, updated);
      Storage.SaveOverwritesLoad(old(store.items), defaults, updated);
      Storage.LoadAfterSave(old(store.items), updated, defaults);
      RenderAdmin();
    }

    /**
     * The add-task form of a section. A blank entry changes nothing, not even
     * the field; otherwise the trimmed text is appended and the field cleared.
     */
    method OnTaskSubmitted(secIndex: nat, input: string) returns (field: string)
      requires Trim(input) != [] ==> secIndex < |Current(store.items)|
      modifies store
      ensures Trim(input) == [] ==> store.items == old(store.items) && field == input
      ensures Trim(input) != [] ==> field == "" && store.items == old(store.items)[Storage.SectionsKey :=
        Json.Stringify(AppendTask(Current(old(store.items)), secIndex, Trim(input)))]
    {
      var newTask := Trim(input);
      field := input;
      if newTask != [] {
        var updated := LoadSections();
        updated := updated[secIndex := updated[secIndex].(tasks := updated[secIndex].tasks + [newTask])];
        Storage.SaveSections(store, updated);
        Storage.SaveOverwritesLoad(old(store.items), defaults, updated);
        Storage.LoadAfterSave(old(store.items), updated, defaults);
        RenderAdmin();
        field := "";
      }
    }

    /** The "Supprimer section" button: remove section `secIndex`. */
    method OnSectionDeleted(secIndex: nat)
      modifies store
      ensures store.items == old(store.items)[Storage.SectionsKey :=
        Json.Stringify(Splice(Current(old(store.items)), secIndex))]
      ensures Current(store.items) == Splice(Current(old(store.items)), secIndex)
    {
      var updated := LoadSections();
      if secIndex < |updated| {
        updated := updated[..secIndex] + updated[secIndex + 1..];
      }
      Storage.SaveSections(store, updated);
      Storage.SaveOverwritesLoad(old(store.items), defaults, updated);
      Storage.LoadAfterSave(old(store.items), updated, defaults);
      RenderAdmin();
    }

    /**
     * The add-section form. `nameField` is None when the page has no name
     * field, which reads as an empty name. A blank name changes nothing;
     * otherwise an empty section is appended and the field cleared.
     */
    method OnSectionSubmitted(nameField: Option<string>) returns (field: Option<string>)
      modifies store
      ensures var name := if nameField.Some? then Trim(nameField.value) else "";
        && (name == [] ==> store.items == old(store.items) && field == nameField)
        && (name != [] ==> field == Some("") && store.items == old(store.items)[Storage.SectionsKey :=
              Json.Stringify(AppendSection(Current(old(store.items)), name))])
    {
      var newName := if nameField.Some? then Trim(nameField.value) else "";
      field := nameField;
      if newName != [] {
        var sections := LoadSections();
        sections := sections + [Section(newName, [])];
        Storage.SaveSections(store, sections);
        Storage.SaveOverwritesLoad(old(store.items), defaults, sections);
        Storage.LoadAfterSave(old(store.items), sections, defaults);
        RenderAdmin();
        field := Some("");
      }
    }
  }
}
