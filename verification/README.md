# NovaCheck checklist store and daily report, in Dafny

NovaCheck Web is a browser app for daily building inspections. A checklist is
an ordered list of named sections, and each section holds an ordered list of
task labels. The checklist lives in the browser's `localStorage` under
`novacheck_sections` as the JSON text of that list. An optional logo lives
under `novacheck_logo`. Two scripts share the store:

- `app.js` runs the checklist page, the back office and the PDF report.
- `script.js` has its own defaults and its own `loadSections` / `saveSections`.
  It draws the checklist page (`renderChecklists`) and a back office whose
  handlers edit the list loaded when the page was drawn. Its report button
  only shows an alert.

This project models the part of both scripts that holds the logic:

- **Checklist store.** `loadSections` returns the stored checklist when there
  is a readable one. Otherwise it writes the built-in defaults back and
  returns them. `saveSections` overwrites the whole stored list. `getLogo`
  reads the logo.
- **Back-office edits.** Five edits: rename a task, delete a task, add a
  task, delete a section, add a section. Each one changes the checklist by
  index assignment, `splice(i, 1)` or `push`, then saves all of it. The two
  scripts differ in where the list being edited comes from:
  - in `app.js`, every handler loads the list afresh from storage;
  - in `script.js`, the handlers edit the snapshot that the last drawing of
    the page loaded, and the page is redrawn after every edit except a rename.
- **Daily report** (`generatePDF` in `app.js`). The report is a layout pass
  that walks the sections and tasks in order with a vertical cursor. It emits
  text, image and new-page instructions for a PDF writer.

Modules:

- `Checklists` (`checklists.dfy`): the data model; `String.prototype.trim`
  for the whitespace set of ECMAScript; the array edits as functions on
  values, each with its frame conditions.
- `Json` (`json.dfy`): the text that `JSON.stringify` produces for a
  checklist, and a parser for it. The round trip
  `Parse(Stringify(c)) == Some(c)` is proved.
- `Storage` (`storage.dfy`): a `LocalStorage` class whose `items` map is
  updated in place, and the `loadSections` / `saveSections` pair that both
  scripts share. Lemmas cover loading after a save, the two cases of a load,
  and idempotence of loading.
- `App` (`app.dfy`): app.js's defaults, its logo getter and its handlers,
  which reload before each edit. This is a `Page` class over the store.
- `Script` (`script.dfy`): script.js's defaults and its handlers. These are
  methods of an `AdminView` class whose `sections` field is the snapshot that
  the closures capture.
- `Report` (`report.dfy`): the report layout. It is written twice:
  - as methods with loops that mirror `generatePDF`'s nested `for` loops and
    its mutable cursor;
  - as functions that specify those methods.

  Lemmas about the functions cover, among other things:
  - the cursor arithmetic;
  - the OK/KO rule and the comment rule;
  - the photo and logo geometry;
  - the page-break rule: a break only after a whole section, and the cursor
    back at the top margin;
  - that the cursor never moves up between breaks;
  - the exact text the report holds, in checklist order.

## Model

| member | source | states |
|---|---|---|
| Checklists.TrimSpec | app.js:199 | `trim()` never lengthens its input. It returns the empty string exactly when the input is all ECMAScript whitespace. Otherwise the result neither starts nor ends with whitespace. |
| Checklists.TrimExact | app.js:439 | Any whitespace around a core that has no whitespace at either end is removed, and the core is returned unchanged. |
| Checklists.TrimIdempotent | script.js:149 | Trimming twice gives the same as trimming once. |
| Checklists.Splice | app.js:215 | `splice(i, 1)` removes element `i`; earlier elements keep their places and later ones move down by one. An index past the end leaves the array unchanged. |
| Checklists.RenameTask | app.js:168 | Index assignment on a task changes that one label only. Every other task and every other section is unchanged, and so is the section's name. The length stays the same, except that assigning just past the end appends the label. |
| Checklists.DeleteTask | app.js:178 | Removing task `t` of section `s` drops exactly that task. Earlier tasks stay, later tasks shift down by one, and the name and the other sections are unchanged. An out-of-range `t` changes nothing. |
| Checklists.AppendTask | app.js:202 | `push` puts the label at the end of section `s`. Every other section and the section's existing tasks are unchanged. |
| Checklists.AppendSection | app.js:442 | One empty section with the given name is added after all the others, which keep their order. |
| Json.HexRoundTrip | app.js:68 | A hex digit written by the encoder reads back as its value. |
| Json.QuoteRoundTrip | app.js:68 | A string written as a JSON string literal parses back to the same string, and the text that follows is left unread. |
| Json.StringArrayRoundTrip | app.js:68 | A task list written as a JSON array of strings parses back to the same list. |
| Json.SectionRoundTrip | app.js:68 | A section written as `{"name":…,"tasks":[…]}` parses back to the same section. |
| Json.SectionItemsRoundTrip | app.js:68 | A non-empty run of section objects separated by commas parses back to the same sections. |
| Json.RoundTrip | app.js:48-72 | What `JSON.stringify` writes for a checklist, `JSON.parse` reads back as the same checklist. |
| Storage.LocalStorage.GetItem | app.js:50 | `getItem` returns a value exactly when the key is stored, and then it returns the stored value. |
| Storage.LocalStorage.SetItem | app.js:58 | `setItem` changes that key and no other. |
| Storage.LoadSections | app.js:48-60 | The result is the stored checklist when a non-empty, readable text is stored, and the defaults otherwise. The storage after the call is unchanged in the first case; in the second the defaults have been written back. |
| Storage.SaveSections | app.js:66-72 | The sections key holds the JSON text of the whole checklist, and no other key changes. |
| Storage.LoadCases | app.js:48-60 | If a readable checklist is stored, a load returns it and writes nothing. Otherwise a load returns the defaults and leaves them readable in storage. No key other than the sections key changes. |
| Storage.LoadAfterSave | app.js:66-72 | After a save, the stored text reads back as the saved checklist, so the next load returns that checklist. |
| Storage.LoadIdempotent | script.js:49-61 | A second load returns what the first one returned and writes nothing. |
| Storage.SaveOverwritesLoad | app.js:177-179 | A load followed by a save leaves storage exactly as the save alone would, because the save overwrites any defaults the load wrote back. |
| App.DefaultSections | app.js:10-42 | The four built-in sections and their task counts (3, 3, 3, 2). |
| App.Page.constructor | app.js:10 | The page works on the shared store; its defaults are app.js's `defaultSections`. |
| App.Page.LoadSections | app.js:48-60 | `loadSections` with app.js's defaults. An unreadable store yields the four default sections. |
| App.Page.GetLogo | app.js:78-85 | The logo is returned exactly when a non-empty value is stored under the logo key, and it is returned unchanged. |
| App.Page.RenderAdmin | app.js:144-145 | Drawing the back office loads the checklist, which writes the defaults back when no readable checklist is stored. |
| App.Page.OnTaskRenamed | app.js:164-170 | The freshly loaded checklist, with that one task renamed, is saved. The next load returns it. |
| App.Page.OnTaskDeleted | app.js:176-181 | The freshly loaded checklist, minus exactly task `taskIndex` of section `secIndex`, is saved and then drawn again. The next load returns it. |
| App.Page.OnTaskSubmitted | app.js:197-207 | For a blank entry, nothing is loaded or saved and the field keeps its text. Otherwise the trimmed text is appended to section `secIndex` of the fresh checklist, the result is saved, and the field is cleared. |
| App.Page.OnSectionDeleted | app.js:213-218 | The freshly loaded checklist, minus exactly section `secIndex`, is saved and then drawn again. The next load returns it. |
| App.Page.OnSectionSubmitted | app.js:436-447 | For a blank name or a missing field, nothing is loaded or saved. Otherwise an empty section with the trimmed name is appended to the fresh checklist, the result is saved, and the field is cleared. |
| Script.DefaultSections | script.js:10-43 | The four built-in sections of script.js and their task counts (3, 3, 4, 2). |
| Script.AdminView.constructor | script.js:208-210 | The first drawing on page load takes the snapshot from a load. Storage then holds that snapshot. |
| Script.AdminView.RenderAdmin | script.js:107-108 | Drawing loads a fresh snapshot. It writes the defaults back if needed and leaves storage holding the snapshot. |
| Script.AdminView.SaveAndRender | script.js:137-138 | Saving and redrawing keeps the snapshot's value. Storage holds exactly its JSON text. |
| Script.AdminView.OnTaskRenamed | script.js:126-131 | Only that task of the snapshot is renamed, and the whole snapshot is saved. |
| Script.AdminView.OnTaskDeleted | script.js:135-139 | Exactly task `taskIndex` of section `secIndex` is removed from the snapshot, and the snapshot is saved and drawn again. |
| Script.AdminView.OnTaskSubmitted | script.js:147-156 | The trimmed text is appended exactly when it is not blank. Storage changes only in that case, and the field is cleared either way. |
| Script.AdminView.OnSectionDeleted | script.js:169-173 | Exactly section `secIndex` is removed from the snapshot, and the snapshot is saved and drawn again. |
| Script.AdminView.OnSectionSubmitted | script.js:180-190 | Without a name field, reading its value throws, so nothing is pushed, saved or cleared. With one, an empty section with the trimmed name is appended exactly when the name is not blank. Storage changes only in that case, and the field is cleared either way. |
| Report.ReadFacts | app.js:311-314 | A task reads as ticked exactly when its checkbox exists and is checked. Its comment is empty exactly when there is no comment field or the field is all whitespace; otherwise the comment is trimmed at both ends. |
| Report.Scaled | app.js:292-294 | A scaled image has a positive height, and the height keeps the image's aspect ratio at the given width. |
| Report.PlaceTask | app.js:310-336 | One pass of the task loop produces the task's layout: the status line, the comment line, the photo, and the cursor movement. |
| Report.PlaceTasks | app.js:309-337 | The task loop produces the layout of all of the section's tasks in order. |
| Report.PlaceSection | app.js:305-342 | One pass of the section loop produces the heading, the tasks, the gap and the break check. |
| Report.PlaceSections | app.js:304-343 | The section loop produces the layout of every section in order. |
| Report.Compile | app.js:283-358 | The report is laid out as the logo and title, the sections, the signature block and the footer. |
| Report.GeneratePdf | app.js:282-361 | The report is the layout of the loaded checklist, the page's readings, the decoded logo and the signature flag. It is saved as `rapport_novacheck.pdf`. Storage changes only by the defaults write-back of the load. |
| Report.TaskFacts | app.js:315-336 | A task starts with `- {task}: OK/KO` at the cursor. It flows down without a new page and says its status line and then its comment line if there is one. It moves the cursor by 6, plus 6 for a comment, plus the photo height and 4 for a photo. |
| Report.CommentBlock | app.js:315-321 | The status line is at x 25 in size 12. A non-empty comment is the next block: at x 30, 6 below the status line, in size 10. No other block of the task is text. |
| Report.PhotoBlock | app.js:324-336 | A photo is a single image at x = 30, 60 wide, with the photo's aspect ratio, placed last in the task; the cursor then moves by its height plus 4. A task without a photo has no image. |
| Report.TasksFacts | app.js:309-337 | A section's tasks flow without a new page. They say each task's lines in order and move the cursor by the sum of the task heights. |
| Report.HeadedTasks | app.js:306-308 | The heading sits at the cursor and the tasks start 8 below it. |
| Report.SectionFacts | app.js:338-342 | A section starts with its heading at the cursor and has no new page inside. It ends with a new page exactly when cursor + section height passes 260; the cursor is then 20, and otherwise it is cursor + section height. |
| Report.PageBreakShape | app.js:338-342 | The break check adds one new page, as the last instruction, exactly when the cursor is past 260, and it then resets the cursor to 20. |
| Report.PageBreakStacks | app.js:338-342 | After the break check, a run still flows, and a trailing new page leaves the cursor at 20. |
| Report.PageBreakLines | app.js:338-342 | The break check adds no text. |
| Report.SectionStacks | app.js:305-342 | A section starts at the cursor and flows. It leaves the cursor no lower than 260, and at 20 after a new page. |
| Report.SectionLines | app.js:305-321 | A section says its name and then what each of its tasks says. |
| Report.StackStep | app.js:304-343 | Appending a section that starts at the cursor to a run that stacks gives a run that stacks. |
| Report.SectionsStack | app.js:304-343 | The sections flow down the pages, and after each section the cursor is at most 260. |
| Report.SectionsLines | app.js:304-321 | The sections say, in checklist order, each section's name followed by each task's status line and comment. |
| Report.OpensFirstSection | app.js:304-307 | A non-empty checklist starts with the first section's heading at the cursor. |
| Report.HeaderFacts | app.js:287-301 | The logo, if any, and the title open the first page and flow down it. The only text is the title. |
| Report.HeaderPlacement | app.js:287-301 | With a logo, the logo is at (20, 20), 40 wide with the logo's aspect ratio, and the title is 5 below it. Without one, the title is at (20, 20). Either way the sections start 12 below the title. |
| Report.TrailerFacts | app.js:345-354 | With a signature pad, the label `Signature:` is at (20, y) in size 12 and the signature image is 60×20 at (20, y + 4); the cursor then moves by 34. The block opens at the cursor and flows. Without a pad the block is empty and the cursor stays put. |
| Report.Assemble | app.js:282-358 | The header, the sections and the signature block, joined and followed by the footer, flow from 20 and say their texts in order. |
| Report.ReportFacts | app.js:282-358 | The footer is the last instruction. Everything before it flows from y = 20, so the cursor never moves up within a page and each page after a break starts at 20. The report says the title, one heading per section each followed by one status line per task and its comment, `Signature:` if there is a pad, and the footer, in this order. |
| Report.TestSectionExample | app.js:304-321 | Section "Test" has task A, ticked with comment "fine", and task B, unticked with no comment. It reads "Test", "- A: OK", "Commentaire: fine", "- B: KO". |

## Left out

- DOM construction and rendering are not modelled: `renderChecklists`, and the creation of elements in `renderAdmin`. `renderAdmin` is modelled only by what it does to state, which is the load at its start.
- The signature is modelled as a flag meaning "the page has a signature pad", drawn as a fixed 60×20 block. Canvas capture (`initSignature`, `clearSignature`) is not modelled.
- QR scanning (`initQrScanner`) is not modelled. It relies on a foreign library and a camera stream.
- Report.GeneratePdf assumes every image read and every image decode succeeds. Image decoding (`readFileAsDataURL` and the awaited `Image` loads) is a parameter that supplies a positive intrinsic width and height, by which the source divides. The source's failure paths are not modelled:
  - a photo that cannot be read makes `readFileAsDataURL` reject (app.js:274). The `await` at app.js:326 has no `try`, so `generatePDF` stops there and no file is saved (app.js:360);
  - a logo or photo that cannot be decoded never fires `onload` (app.js:291, 329), so its promise never settles and the report is never finished.
- jsPDF is not modelled. `addImage`, `text`, `addPage` and `save` become a sequence of instructions plus a file name. `setFontSize` is folded into each text instruction as a font size.
- Storage.StoredSections reads only the canonical text that `JSON.stringify` writes for a checklist, through `Json.Parse`. Inside strings, `Json.Parse` accepts every escape JSON allows except those for code points U+D800 to U+DFFF. That excludes surrogate pairs and lone surrogates alike, because a Dafny `char` cannot hold a surrogate. Any other stored text counts as unreadable, so a load returns the defaults and overwrites the stored text with them. The source behaves differently:
  - it keeps and uses stored JSON that is valid but not canonical, such as text with spaces, keys in another order, or a section with an extra key. `renderAdmin`, the handlers and `generatePDF` all work on such a checklist, and nothing is written;
  - for a top-level number or object, `generatePDF` sees `sections.length` as undefined and prints a report with no sections.

  Both scripts only ever write the canonical text themselves, so the difference shows only for text put into storage by other means.
- Reads and writes of storage always succeed. The model includes neither a `getItem` that throws (caught at app.js:49-56, app.js:79-84 and script.js:50-57, where it leads to the defaults or to no logo) nor a quota failure on `setItem`, whether inside `saveSections`'s `try` or at the unprotected default write-back.
- `handleLogoUpload` is not modelled. It is file I/O into storage.
- The `generateReport` alert stub in script.js is not modelled.
- Checklists are values. `[...defaultSections]` (app.js:59, script.js:60) returns a shallow copy whose task arrays are shared with `defaultSections`. A task edit made on a checklist that came from the fallback therefore also changes the defaults' own task arrays, and a later fallback in the same page session would return the edited tasks. The model keeps the defaults constant and does not capture this sharing.
- Coordinates and image heights are exact reals. The model does not capture the rounding of JavaScript doubles.
- An out-of-range section index makes the rename, delete-task and add-task handlers raise a `TypeError` (app.js:168, 178, 202; script.js:129, 136, 151). In the model this is a precondition of those handlers. The section-delete handlers take any index, since `splice` ignores one past the end, and the model does the same.
- App.Page.OnTaskRenamed, Script.AdminView.OnTaskRenamed and Checklists.RenameTask require a task index at most the task count. The source does not throw on a larger index: the assignment extends the array with holes, which `JSON.stringify` writes as `null`. Task labels in the model are strings, so such a checklist cannot be represented. An index equal to the task count appends the label, and that case is modelled. An out-of-range task index in a task delete changes nothing, as `splice` does.
- Report.GeneratePdf reads every task's checkbox, comment and photo through one lookup (`ReadAll`), as if the page were not changing while the report is built. In the source, `generatePDF` suspends at each `await` (app.js:291, 326, 329) and queries each task's fields only when the loop reaches it. User input during those waits, such as a checkbox ticked or a comment typed while an earlier photo is decoding, is seen by the source but not by the model. A second click on the generate button during a wait, which starts a concurrent run, is not modelled either.
- `Report.GeneratePdf` reads the stored logo before loading the checklist. The source does the same, and the load never changes the logo key.
- script.js's `renderAdmin` returns early when the page has no `sections` container. The model assumes the back-office page, where the container exists.
