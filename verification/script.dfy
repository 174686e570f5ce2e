/**
 * The store and back-office handlers of script.js.
 *
 * Unlike app.js, the back office here loads the checklist once per drawing
 * of the page and every handler edits that snapshot in place, then saves
 * the whole snapshot. Handlers that change the shape of the list draw the
 * page again, which loads the snapshot afresh from what was just saved.
 */
module Script {
  import opened Checklists
  import Json
  import Storage

  /** The four sections installed on first use; they differ from app.js's. */
  function DefaultSections(): (r: Checklist)
    ensures |r| == 4
    ensures r[0].name == "Chaufferies" && |r[0].tasks| == 3
    ensures r[1].name == "Contrôle général" && |r[1].tasks| == 3
    ensures r[2].name == "Piscines et spa" && |r[2].tasks| == 4
    ensures r[3].name == "Pompes de relevage" && |r[3].tasks| == 2
  {
    [ Section("Chaufferies", [
        "Contrôler la chaudière 1",
        "Contrôler la chaudière 2",
        "Contrôler la chaudière 3"]),
      Section("Contrôle général", [
        "Inspection des parties communes",
        "Vérifier l'éclairage de sécurité",
        "Contrôle des alarmes incendie"]),
      Section("Piscines et spa", [
        "Relever la température de la piscine extérieure",
        "Prélever un échantillon d'eau de la piscine extérieure",
        "Relever la température de la piscine du spa",
        "Prélever un échantillon d'eau de la piscine du spa"]),
      Section("Pompes de relevage", [
        "Vérifier la pompe de relevage 1",
        "Vérifier la pompe de relevage 2"])
    ]
  }

  /**
   * The back-office page: the storage it shares with the rest of the site,
   * the script's `defaultSections`, and the `sections` array that the
   * closures of the last `renderAdmin` captured.
   */
  class AdminView {
    const store: Storage.LocalStorage
    const defaults: Checklist := DefaultSections()
    var sections: Checklist

    /** The snapshot is what storage now holds, so the next load returns it unchanged. */
    predicate Synced()
      reads this, store
    {
      Storage.StoredSections(store.items) == Some(sections)
    }

    /** The page is drawn for the first time on load. */
    constructor (store: Storage.LocalStorage)
      modifies store
      ensures this.store == store
      ensures Storage.StoredSections(old(store.items)).None? ==> sections == DefaultSections()
      ensures sections == Storage.Loaded(old(store.items), defaults)
      ensures store.items == Storage.AfterLoad(old(store.items), defaults)
      ensures Synced()
    {
      this.store := store;
      new;
      sections := Storage.LoadSections(store, defaults);
      Storage.LoadIdempotent(old(store.items), defaults);
    }

    /** `renderAdmin`, as far as state goes: the snapshot is loaded afresh. */
    method RenderAdmin()
      modifies this, store
      ensures sections == Storage.Loaded(old(store.items), defaults)
      ensures Storage.StoredSections(old(store.items)).None? ==> sections == DefaultSections()
      ensures store.items == Storage.AfterLoad(old(store.items), defaults)
      ensures Synced()
    {
      sections := Storage.LoadSections(store, defaults);
      Storage.LoadIdempotent(old(store.items), defaults);
    }

    /**
     * Saves the snapshot and draws the page again. The fresh load finds what
     * was just written, so the snapshot keeps its value and nothing more is
     * written.
     */
    method SaveAndRender()
      modifies this, store
      ensures sections == old(sections)
      ensures store.items == old(store.items)[Storage.SectionsKey := Json.Stringify(sections)]
      ensures Synced()
    {
      Storage.SaveSections(store, sections);
      Storage.LoadAfterSave(old(store.items), sections, defaults);
      RenderAdmin();
    }

    /** The `onchange` handler of a task's text field: the snapshot's task is renamed and saved. */
    method OnTaskRenamed(sIndex: nat, tIndex: nat, value: string)
      requires sIndex < |sections| && tIndex <= |sections[sIndex].tasks|
      modifies this, store
      ensures sections == RenameTask(old(sections), sIndex, tIndex, value)
      ensures store.items == old(store.items)[Storage.SectionsKey := Json.Stringify(sections)]
      ensures Synced()
    {
      var tasks := sections[sIndex].tasks;
      if tIndex < |tasks| {
        tasks := tasks[tIndex := value];
      } else {
        tasks := tasks + [value];
      }
      sections := sections[sIndex := sections[sIndex].(tasks := tasks)];
      Storage.SaveSections(store, sections);
      Storage.LoadAfterSave(old(store.items), sections, defaults);
    }

    /** The "Supprimer" button of a task: splice it out of the snapshot, save, redraw. */
    method OnTaskDeleted(secIndex: nat, taskIndex: nat)
      requires secIndex < |sections|
      modifies this, store
      ensures sections == DeleteTask(old(sections), secIndex, taskIndex)
      ensures store.items == old(store.items)[Storage.SectionsKey := Json.Stringify(sections)]
      ensures Synced()
    {
      var tasks := sections[secIndex].tasks;
      if taskIndex < |tasks| {
        tasks := tasks[..taskIndex] + tasks[taskIndex + 1..];
      }
      sections := sections[secIndex := sections[secIndex].(tasks := tasks)];
      SaveAndRender();
    }

    /**
     * The add-task form of a section. A blank entry leaves snapshot and
     * storage alone; otherwise the trimmed text is pushed, saved and the page
     * redrawn. The field is cleared either way.
     */
    method OnTaskSubmitted(secIndex: nat, input: string) returns (field: string)
      requires Trim(input) != [] ==> secIndex < |sections|
      modifies this, store
      ensures field == ""
      ensures Trim(input) == [] ==> sections == old(sections) && store.items == old(store.items)
      ensures Trim(input) != [] ==>
        && sections == AppendTask(old(sections), secIndex, Trim(input))
        && store.items == old(store.items)[Storage.SectionsKey := Json.Stringify(sections)]
        && Synced()
    {
      var newTask := Trim(input);
      if newTask != [] {
        sections := sections[secIndex := sections[secIndex].(tasks := sections[secIndex].tasks + [newTask])];
        SaveAndRender();
      }
      field := "";
    }

    /** The "Supprimer section" button: splice the section out, save, redraw. */
    method OnSectionDeleted(secIndex: nat)
      modifies this, store
      ensures sections == Splice(old(sections), secIndex)
      ensures store.items == old(store.items)[Storage.SectionsKey := Json.Stringify(sections)]
      ensures Synced()
    {
      if secIndex < |sections| {
        sections := sections[..secIndex] + sections[secIndex + 1..];
      }
      SaveAndRender();
    }

    /**
     * The add-section form. `nameField` is None when the page has no name
     * field: reading its value then raises a TypeError, so nothing is pushed,
     * saved or cleared. A blank name leaves snapshot and storage alone;
     * otherwise an empty section named by the trimmed text is pushed, saved
     * and the page redrawn. A present field is cleared either way.
     */
    method OnSectionSubmitted(nameField: Option<string>) returns (field: Option<string>)
      modifies this, store
      ensures nameField.None? ==> field == None && sections == old(sections) && store.items == old(store.items)
      ensures nameField.Some? ==> field == Some("")
      ensures nameField.Some? && Trim(nameField.value) == [] ==>
        sections == old(sections) && store.items == old(store.items)
      ensures nameField.Some? && Trim(nameField.value) != [] ==>
        && sections == AppendSection(old(sections), Trim(nameField.value))
        && store.items == old(store.items)[Storage.SectionsKey := Json.Stringify(sections)]
        && Synced()
    {
      field := nameField;
      if nameField.None? {
        return;
      }
      var newName := Trim(nameField.value);
      if newName != [] {
        sections := sections + [Section(newName, [])];
        SaveAndRender();
      }
      field := Some("");
    }
  }
}
