# OVB Firmenvorstellung — a Dafny model of the presentation app's core

The OVB presentation app is a Next.js tablet application, packaged as an
Android app, that an adviser uses to present the company, its products and
its partner programme, and to collect contacts and recommendations from a
customer. This project models the parts of it that compute something or keep
state, and proves what the code promises about them:

- the registry of minimized apps in session storage: validation on read,
  newest-first order, and at most one minimized entry per app group
  (`MinimizedApps`, `AppGroups`), with the app catalogue of the overview
  (`AppCatalog`);
- the Chancenblatt questionnaire: the step machine, the scoring with its
  O > A > S > V tie-break, and the question table (`ChancenblattFlow`,
  `ChancenblattQuestions`);
- the folder icon's grid, badge, palette and colour lightener (`FolderIcon`);
- the stylus drawing layer: the stylus filter, the SVG path text and its
  parser, the stroke life cycle and the eraser (`DrawingSvg`);
- the top bar's tool modes and page chain (`TopBar`);
- the contact form (`Contacts`, `Kontaktbogen`) and the two settings stores
  kept in local storage (`NotesContext`, `PenContext`, over `JsonStore`);
- the four PDF generators — the server route for recommendations and the
  Chancenblatt, and the client-side recommendations, contact-sheet and
  Chancenblatt exports (`PdfRoute`, `ExportEmpfehlungen`, `ExportController`,
  `ChancenblattExport`, over the shared `PdfDoc` and `PdfRows`);
- the click-through presentation scenes, each as a class whose methods are
  the click handlers and timer callbacks (`KapitalmarktPages`,
  `KapitalmarktStandalone`, `EmpfehlungFlow`, `FirmenEmpfehlungFlow`,
  `AnalyseErklaerung`, `FirmenAnalyseErklaerung`, `ZieleFlow`,
  `SituationsPfeil`, `Grundskel`, `Werbung`, `AbsFlowController`, `AbsPage`,
  `FirmenAbsPage`, with the guarded counter of `StepCounter`);
- the Android activity that hides the system bars (`MainActivity`).

How the model stands in for what it cannot see:

- A PDF is a value `Doc`: a page count, the current page and the log of
  drawing operations, each tagged with its page. `Texts(log, x)` reads the
  single-line texts drawn at column `x` in order, which is how the contracts
  say what a generator writes. Each generator is a method with the source's
  loop and cursor, proved equal to a specification function, and the
  properties are lemmas about that function.
- `splitTextToSize` is a function parameter `wrap`; the logo's height is a
  parameter.
- Storage is an abstract value per key: inaccessible, absent, or the parsed
  JSON value (`StoredItem`). Writing JSON text and parsing it again is not
  modelled; what is written is the JSON value itself.
- Every `setTimeout` callback is an event method that the environment may
  call while the timer is pending; pending timers are counters or flags in
  the class. Where the delays from one origin fix the order in which
  callbacks fire, the model fires them in that order.
- Screenshots, the clock (`Date.now()`) and the Android SDK level are
  parameters.
- Numbers are integers: coordinates of the drawing layer are integers and
  `Math.hypot` comparisons become comparisons of squared distances.

## Model

| member | source | states |
|---|---|---|
| MinimizedApps.DecodeEntry | components/layout/minimized-apps.ts:25-33 | a stored item yields an entry exactly when it is an object with a string route, a string title and a numeric minimizedAt |
| MinimizedApps.ValidEntries | components/layout/minimized-apps.ts:25-33 | the kept entries are never more than the stored items |
| MinimizedApps.ValidEntriesMembers | components/layout/minimized-apps.ts:25-33 | an entry is kept exactly when some stored item decodes to it |
| MinimizedApps.ValidEntriesAppend | components/layout/minimized-apps.ts:25-33 | the entry filter works item by item: filtering two stored parts one after the other equals filtering their concatenation, so stored order is kept |
| MinimizedApps.EncodeAll | components/layout/minimized-apps.ts:44 | writing the list gives one stored item per entry |
| MinimizedApps.EncodeAllRoundTrip | components/layout/minimized-apps.ts:25-44 | every list the registry writes is read back unchanged by the entry filter |
| MinimizedApps.SafeRead | components/layout/minimized-apps.ts:9-37 | no window, a read that throws, nothing stored, an empty item, unparseable text or a non-array all give the empty list; otherwise an entry is read exactly when some stored item decodes to it |
| MinimizedApps.Insert | components/layout/minimized-apps.ts:50 | one insertion step of the sort adds exactly one element |
| MinimizedApps.InsertPermutes | components/layout/minimized-apps.ts:50 | an insertion step adds the inserted entry and nothing else (multiset) |
| MinimizedApps.InsertSorted | components/layout/minimized-apps.ts:50 | inserting into a newest-first list keeps it newest first |
| MinimizedApps.SortNewestFirst | components/layout/minimized-apps.ts:49-51 | the result has non-increasing minimizedAt and is a permutation of the input |
| MinimizedApps.AddPlacesRouteFirst | components/layout/minimized-apps.ts:57-81 | after adding, the new entry comes first; no later entry has its route or, when it has a group, its group; any other entry remains exactly when it was stored and lies outside both |
| MinimizedApps.AddKeepsExclusive | components/layout/minimized-apps.ts:57-81 | a registry with at most one entry per group and per route keeps that shape when an app is added |
| MinimizedApps.SubsequenceKeepsExclusive | components/layout/minimized-apps.ts:62-73 | the filters that adding applies keep "one entry per group and per route" |
| MinimizedApps.SameSurvivors | components/layout/minimized-apps.ts:61-73 | the group filter (or the same-route filter when there is no group) followed by the same-route filter keeps exactly the entries of another route that are outside the route's group |
| MinimizedApps.RemoveAbsentRoute | components/layout/minimized-apps.ts:84-87 | removing a route that is not stored leaves the list as it was |
| MinimizedApps.Registry.SafeWrite | components/layout/minimized-apps.ts:39-47 | with a window the list is stored (and reads back as written) and one change event is sent; without a window nothing changes |
| MinimizedApps.Registry.GetMinimizedApps | components/layout/minimized-apps.ts:49-51 | the result is newest first and a permutation of what `safeRead` returns |
| MinimizedApps.Registry.AddMinimizedApp | components/layout/minimized-apps.ts:53-82 | with a window the stored list becomes the new entry followed by the surviving entries in their order, and one change event is sent; without a window nothing changes |
| MinimizedApps.Registry.RemoveMinimizedApp | components/layout/minimized-apps.ts:84-87 | with a window the stored list loses exactly the entries of that route and keeps the others in order |
| MinimizedApps.Registry.ClearMinimizedApps | components/layout/minimized-apps.ts:89-91 | with a window the stored list becomes empty |
| AppGroups.GetAppGroup | app/config/app-groups.ts:12-34 | "firmenvorstellung" exactly for the seven routes of that group, "home" exactly for "/firmenvorstellung/home", no group for every other route |
| AppGroups.GetAppGroupIcon | app/config/app-groups.ts:23-38 | "/ovb.png" for firmenvorstellung and "/home-icon.png" for home |
| AppGroups.UngroupedRoutes | app/config/app-groups.ts:12-34 | "/" and "/firmenvorstellung/pages/home" have no group |
| AppCatalog.AreaLabel | app/config/app-catalog.ts:97-100 | every area has a non-empty heading, "OVB Firmenvorstellung" exactly for the suite and "Weitere Apps" exactly for the future apps |
| AppCatalog.GetOverviewApps | app/config/app-catalog.ts:102-106 | every returned app has the area and is visible; every such catalogue entry is returned; the result is a subsequence of the catalogue (order kept) |
| AppCatalog.OverviewByArea | app/config/app-catalog.ts:13-106 | the suite's overview is the whole catalogue and the future-apps overview is empty |
| AppCatalog.CatalogIdsDistinct | app/config/app-catalog.ts:13-95 | the catalogue has 9 entries with pairwise distinct ids |
| ChancenblattFlow.TallyTotal | app/pages/chancenblatt/ChancenblattFlow.tsx:43-51 | every matched question adds exactly one point to exactly one of the four counts, so the counts sum to the number of matched questions, at most the number of questions |
| ChancenblattFlow.PickResult | app/pages/chancenblatt/ChancenblattFlow.tsx:53-58 | the chosen type has the maximal count, and every type before it in the order O, A, S, V has a strictly smaller count |
| ChancenblattFlow.Flow.constructor | app/pages/chancenblatt/ChancenblattFlow.tsx:12-16 | the flow starts on the first question with no answers, unfinished and without a result |
| ChancenblattFlow.Flow.HandleSelect | app/pages/chancenblatt/ChancenblattFlow.tsx:20-22 | the answer of the current question is set to the value; every other answer, the step and the result stay as they were |
| ChancenblattFlow.Flow.Next | app/pages/chancenblatt/ChancenblattFlow.tsx:24-32 | without a non-empty answer nothing changes; otherwise the step moves on by one, or on the last question the flow finishes with the scored result; the step stays a question index |
| ChancenblattFlow.Flow.Back | app/pages/chancenblatt/ChancenblattFlow.tsx:34-38 | nothing at the first question, otherwise one question back; answers and result unchanged |
| ChancenblattFlow.Flow.Finish | app/pages/chancenblatt/ChancenblattFlow.tsx:40-64 | the flow is finished and its result is the scored outcome of the answers, so the evaluation is shown |
| ChancenblattFlow.CountKinds | app/pages/chancenblatt/ChancenblattFlow.tsx:41-51 | the counting loop yields, for each type, the number of questions whose answer matches an option of that type |
| ChancenblattFlow.NoAnswersGivesO | app/pages/chancenblatt/ChancenblattFlow.tsx:43-58 | when no answer matches an option all counts are zero and the tie-break picks O |
| ChancenblattFlow.NoMatchesTallyZero | app/pages/chancenblatt/ChancenblattFlow.tsx:43-51 | questions without a matching answer add nothing to any count |
| ChancenblattQuestions.FindOption | app/pages/chancenblatt/ChancenblattFlow.tsx:45 | a found option is one of the options and carries the value |
| ChancenblattQuestions.FindOptionNone | app/pages/chancenblatt/ChancenblattFlow.tsx:45 | nothing is found exactly when no option carries the value |
| ChancenblattQuestions.MatchedOption | app/pages/chancenblatt/ChancenblattFlow.tsx:44-46 | a matched option belongs to the question and carries the question's stored answer |
| ChancenblattQuestions.MatchedOptionIff | app/pages/chancenblatt/ChancenblattFlow.tsx:44-46 | a question is matched exactly when it has an answer and one of its options carries that answer |
| ChancenblattQuestions.QuestionTableShape | app/firmenvorstellung/pages/chancenblatt/ChancenblattQuestions.ts:1-63 | six questions with pairwise distinct ids, four options each, and only q6 optional |
| ChancenblattQuestions.AnswerValuesPrefixed | app/firmenvorstellung/pages/chancenblatt/ChancenblattQuestions.ts:5-61 | every option value starts with its question's id followed by "_" |
| ChancenblattQuestions.AnswerValuesDistinctWithinQuestion | app/firmenvorstellung/pages/chancenblatt/ChancenblattQuestions.ts:5-61 | the four values of a question differ |
| ChancenblattQuestions.AnswerValuesDistinct | app/firmenvorstellung/pages/chancenblatt/ChancenblattQuestions.ts:5-61 | no two options in the whole table share a value |
| FolderIcon.DisplayApps | components/FolderIcon.tsx:29-30 | the shown apps are exactly the first min(n, 9) apps, in order, and all of them when there are at most nine |
| FolderIcon.Badge | components/FolderIcon.tsx:70-76 | the overflow badge exists exactly when there are more than nine apps |
| FolderIcon.GridAccounting | components/FolderIcon.tsx:52-76 | shown apps and placeholders always fill exactly nine cells; shown apps plus the badge number give the number of apps; with a badge there is no placeholder |
| FolderIcon.ColorForApp | components/FolderIcon.tsx:152-165 | the colour is the palette entry at the index modulo 9 |
| FolderIcon.PaletteRepeats | components/FolderIcon.tsx:152-165 | slots nine apart get the same colour |
| FolderIcon.ModNineRepeats | components/FolderIcon.tsx:164 | adding a multiple of nine does not change the index modulo 9 |
| FolderIcon.BackgroundColor | components/FolderIcon.tsx:99-105 | "firmenvorstellung" and "easy" always get their fixed colours; otherwise a non-empty own colour wins, else the palette colour of the app's index (`ColorForApp(index)`) |
| FolderIcon.UpperCase | components/FolderIcon.tsx:141 | lower-case Latin-1 letters become their capitals (`ä`, `ö`, `ü` to `Ä`, `Ö`, `Ü`, `ß` to "SS"); every other character stays as it is; the result has one or two characters |
| FolderIcon.UpperCaseIdempotent | components/FolderIcon.tsx:141 | every character the upper-casing writes is left alone by it |
| FolderIcon.Initial | components/FolderIcon.tsx:141 | the initial is empty exactly for an empty name, and at most two characters long |
| FolderIcon.Slot | components/FolderIcon.tsx:96-177 | a slot shows the icon exactly when the app has a non-empty icon; otherwise the name's initial on a gradient ending in the background lightened by the lightener as written, which is a `#rrggbb` text whenever the background reads as a non-negative 32-bit value and equals the masked lightener for backgrounds below 2^24; the background is the slot's background colour |
| FolderIcon.LightenMaskedFormat | components/FolderIcon.tsx:170-177 | with eight-bit channels the lightener writes `#` and six lower-case hex digits whose value is each channel raised by the amount and capped at 255; no channel decreases |
| FolderIcon.SixDigits | components/FolderIcon.tsx:176 | adding 0x1000000 and dropping the first hex digit leaves exactly six digits worth the packed colour |
| FolderIcon.LeadingOne | components/FolderIcon.tsx:176 | below 2^24, 0x1000000 + c has seven hex digits: a leading 1 followed by six digits worth c |
| FolderIcon.LightenAgreesOnSixDigitColors | components/FolderIcon.tsx:170-177 | for colours whose bits fit in 24 bits the lightener as written equals the masked one |
| FolderIcon.LightenNonNegativeFormat | components/FolderIcon.tsx:170-177 | every colour that parses to a non-negative 32-bit value is lightened into a `#rrggbb` text |
| FolderIcon.LightenNegativeBreaksFormat | components/FolderIcon.tsx:173 | "#80000000" is lightened into a nine-character text, not `#rrggbb` |
| DrawingSvg.CoordsChars | components/presentation/DrawingSVG.tsx:95 | the coordinate text `${x} ${y}` neither starts nor ends with white space and holds no `L` or `M` |
| DrawingSvg.ParsePath | components/presentation/DrawingSVG.tsx:66-75 | the eraser reads one point per piece between `L`s |
| DrawingSvg.ParseChunkFor | components/presentation/DrawingSVG.tsx:68-75 | each piece of a stroke text reads back as its point |
| DrawingSvg.ChunkTrims | components/presentation/DrawingSVG.tsx:70-71 | removing the `M` and trimming a piece leaves just its coordinates |
| DrawingSvg.CoordsSplit | components/presentation/DrawingSVG.tsx:72 | the coordinate text splits at its one space into the two numbers |
| DrawingSvg.EncodeChunks | components/presentation/DrawingSVG.tsx:95-123 | a stroke text built by start and moves splits at `L` into one piece per point, each of the built forms |
| DrawingSvg.EncodeSnoc | components/presentation/DrawingSVG.tsx:123 | the text of a stroke is the text of its earlier points followed by " L x y" for the last point |
| DrawingSvg.ChunksExtend | components/presentation/DrawingSVG.tsx:123 | a move turns the old last piece into an inner one and adds a piece for the new point |
| DrawingSvg.ParseChunks | components/presentation/DrawingSVG.tsx:66-75 | pieces of the built forms read back as their points, in order |
| DrawingSvg.ParseEncodeRoundTrip | components/presentation/DrawingSVG.tsx:66-123 | parsing a stroke text built by start and moves yields exactly the recorded points, in order |
| DrawingSvg.NearEncoded | components/presentation/DrawingSVG.tsx:61-78 | on a built stroke, the eraser's test holds exactly when some point of the stroke is closer than 12 to the eraser |
| DrawingSvg.DrawingLayer.constructor | components/presentation/DrawingSVG.tsx:34-37 | no paths, no stroke in progress, no last point |
| DrawingSvg.DrawingLayer.Start | components/presentation/DrawingSVG.tsx:84-103 | a non-stylus event or a mode other than draw and erase changes nothing; in draw mode a stroke "M x y" begins; in erase mode exactly the paths away from the point remain, in order |
| DrawingSvg.DrawingLayer.Move | components/presentation/DrawingSVG.tsx:109-132 | a non-stylus event, a missing last point or a move shorter than 2 changes nothing; otherwise the last point moves, draw mode appends " L x y" to the stroke in progress and erase mode removes the paths near the point |
| DrawingSvg.DrawingLayer.End | components/presentation/DrawingSVG.tsx:138-147 | a non-stylus event changes nothing; otherwise the stroke in progress (in draw mode) is appended after the unchanged paths, and no stroke or last point remains |
| DrawingSvg.EraseKeepsFarStrokes | components/presentation/DrawingSVG.tsx:61-78 | erasing keeps a built stroke exactly when none of its points is closer than 12 |
| DrawingSvg.EraseKeepsOrder | components/presentation/DrawingSVG.tsx:99-101 | erasing keeps the surviving paths in their order and never adds any |
| Decimal.NatToStringDigits | components/presentation/DrawingSVG.tsx:95 | the decimal text of a natural number is digits, without a leading zero unless it is "0" |
| Decimal.IntToStringChars | components/presentation/DrawingSVG.tsx:95 | `${n}` starts with a minus sign exactly for a negative n and is otherwise digits, ending in a digit |
| Decimal.NatToStringRoundTrip | components/presentation/DrawingSVG.tsx:73 | the digits written for n are worth n |
| Decimal.JsNumber | components/presentation/DrawingSVG.tsx:73 | `Number` of a non-empty run of digits is their value |
| Decimal.IntToStringRoundTrip | components/presentation/DrawingSVG.tsx:73 | `Number(`${n}`)` is n for every integer n |
| Decimal.NegativeRoundTrip | components/presentation/DrawingSVG.tsx:73 | `Number` reads a minus sign followed by the digits of -n back as n |
| Decimal.NegativeText | components/presentation/DrawingSVG.tsx:73 | `Number` reads a minus sign followed by digits as their negated value |
| Decimal.Trim | components/presentation/DrawingSVG.tsx:71 | the trimmed text is the slice of the text left once its leading and trailing white space is cut off; it neither starts nor ends with white space, and it is empty exactly when the whole text is white space |
| Decimal.TrimStartSuffix | components/presentation/DrawingSVG.tsx:71 | cutting the leading white space keeps a suffix of the text and drops white space only |
| Decimal.TrimEndPrefix | components/presentation/DrawingSVG.tsx:71 | cutting the trailing white space keeps a prefix of the text and drops white space only |
| Decimal.TrimUnchanged | components/presentation/DrawingSVG.tsx:71 | a text without white space at its ends is left alone by `trim()` |
| Decimal.TrimPadded | components/presentation/DrawingSVG.tsx:71 | one space on either side of such a text is removed by `trim()` |
| JsText.SplitOn | components/presentation/DrawingSVG.tsx:67 | `split` gives at least one piece, no piece holds the separator, and text without the separator is one piece |
| JsText.SplitAtFirst | components/presentation/DrawingSVG.tsx:67 | the text before the first separator is the first piece |
| JsText.SplitSnoc | components/presentation/DrawingSVG.tsx:67 | appending text, a separator and more text extends the last piece and adds one new piece |
| JsText.RemoveFirst | components/presentation/DrawingSVG.tsx:70 | `replace` of a character removes its first occurrence and keeps everything before and after it; a text without the character is unchanged |
| HexText.HexPrefix | components/FolderIcon.tsx:171 | the digits `parseInt` reads are the longest prefix of hexadecimal digits |
| HexText.NatToHex | components/FolderIcon.tsx:176 | `toString(16)` of a natural number is lower-case hexadecimal digits without a leading zero |
| HexText.IntToHex | components/FolderIcon.tsx:176 | `toString(16)` starts with a minus sign exactly for a negative number |
| HexText.NatToHexRoundTrip | components/FolderIcon.tsx:171-176 | the hexadecimal digits written for n are worth n |
| HexText.NatToHexLength | components/FolderIcon.tsx:176 | a number with k hexadecimal digits is written with exactly k characters |
| HexText.ParseIntHexDigits | components/FolderIcon.tsx:171 | `parseInt(s, 16)` of a non-empty run of hexadecimal digits is their value |
| HexText.ParseIntHexNaN | components/FolderIcon.tsx:171 | text with no hexadecimal digit after the optional sign is NaN |
| HexText.ToInt32 | components/FolderIcon.tsx:173-175 | the 32-bit view is a signed 32-bit value congruent to the number modulo 2^32, the number itself below 2^31, and 0 for NaN |
| HexText.LowByte | components/FolderIcon.tsx:174-175 | masking with 0xFF gives a value in [0, 256) |
| TopBar.NextPage | components/layout/TopBar.tsx:28-37 | "/" → kapitalmarkt → lebensplan → abs → werbung → empfehlung, each in both directions, and no next page for every other path |
| TopBar.NextPageAdvances | components/layout/TopBar.tsx:28-37 | each step along the arrow leaves one page fewer ahead |
| TopBar.FollowEnds | components/layout/TopBar.tsx:28-37 | following the arrow more often than there are pages ahead ends the chain, so it has no cycle |
| TopBar.ChainAtMostSixSteps | components/layout/TopBar.tsx:28-37 | six steps along the arrow always end the chain |
| TopBar.Bar.constructor | components/layout/TopBar.tsx:20-26 | the bar starts with the page's mode and pen settings and the popover closed |
| TopBar.Bar.Click | components/layout/TopBar.tsx:75-115 | the pen toggles the popover while drawing and otherwise switches to draw with the popover closed; eraser, laser and normal set their mode and close the popover; save (offered only with a handler) sends one save request and changes nothing else; the pen settings never change |
| TopBar.Bar.SelectPenOption | components/layout/TopBar.tsx:147-151 | colour and width are both set and the popover closes; the mode stays |
| TopBar.Bar.ClosePenOptions | components/layout/TopBar.tsx:152 | the popover closes and nothing else changes |
| JsonStore.Field | components/layout/NotesContext.tsx:36-37 | reading a field throws exactly on `null`, and gives the field's value when an object has it |
| NotesContext.Load | components/layout/NotesContext.tsx:28-42 | nothing stored, unreadable or unparseable storage and a stored `null` leave the notes as they were; an object gives its string text (else "") and its array drawing (else []); any other value gives the empty notes |
| NotesContext.LoadEncode | components/layout/NotesContext.tsx:33-47 | loading what the save effect wrote restores the same text and drawing, whatever came before |
| NotesContext.LoadWrongTypes | components/layout/NotesContext.tsx:35-38 | an object whose fields have the wrong types loads as empty text and empty drawing |
| NotesContext.UpdateText | components/layout/NotesContext.tsx:49-50 | only the text changes |
| NotesContext.UpdateDrawing | components/layout/NotesContext.tsx:52-53 | only the drawing changes |
| NotesContext.UpdatesCommute | components/layout/NotesContext.tsx:49-53 | the two updates touch different fields, so their order does not matter |
| NotesContext.DrawingRoundTrip | components/layout/NotesContext.tsx:33-47 | a drawing of strokes keeps its strokes through a save and a load |
| NotesContext.UseNotes | components/layout/NotesContext.tsx:62-68 | outside a provider the hook fails with its message; inside it returns the provider's value |
| NotesContext.NotesProvider.constructor | components/layout/NotesContext.tsx:21-47 | mounting starts from empty notes, applies the load effect, and leaves the resulting notes saved under "ovb-global-notes" |
| NotesContext.NotesProvider.Save | components/layout/NotesContext.tsx:45-47 | the current notes are written under the storage key |
| NotesContext.NotesProvider.SetText | components/layout/NotesContext.tsx:44-50 | the text changes, the drawing stays, and the new notes are saved |
| NotesContext.NotesProvider.SetDrawing | components/layout/NotesContext.tsx:44-53 | the drawing changes, the text stays, and the new notes are saved |
| NotesContext.NotesProvider.Reload | components/layout/NotesContext.tsx:28-47 | a provider mounted later on the saved storage loads exactly the current notes |
| PenContext.Setting | components/layout/PenContext.tsx:24-33 | a stored setting replaces the current one exactly when the stored value is an object whose field is present and truthy |
| PenContext.SettingEncode | components/layout/PenContext.tsx:28-44 | saved settings come back on the next load exactly when they are truthy |
| PenContext.FalsyIgnored | components/layout/PenContext.tsx:29-30 | a stored width of 0 and an empty stored colour are ignored |
| PenContext.UsePen | components/layout/PenContext.tsx:53-59 | outside a provider the hook fails with its message; inside it returns the provider's value |
| PenContext.PenProvider.constructor | components/layout/PenContext.tsx:16-44 | the settings start at "#002b5c" and 4, each is replaced by its truthy stored value, and the result is saved under "ovb-pen-settings" |
| PenContext.PenProvider.LoadStored | components/layout/PenContext.tsx:23-34 | each setting is replaced only by a truthy stored field; storage is not touched |
| PenContext.PenProvider.Save | components/layout/PenContext.tsx:39-44 | `{color, width}` is written under the storage key |
| PenContext.PenProvider.SetColor | components/layout/PenContext.tsx:39-47 | the colour changes, the width stays, and both are saved |
| PenContext.PenProvider.SetWidth | components/layout/PenContext.tsx:39-47 | the width changes, the colour stays, and both are saved |
| PenContext.PenProvider.Reload | components/layout/PenContext.tsx:23-44 | a provider mounted later on the saved storage starts with the same truthy settings |
| Contacts.With | app/pages/kontaktbogen/page.tsx:110 | the copied person has the new value in the field and every other field unchanged |
| Contacts.FieldsDetermine | app/pages/kontaktbogen/page.tsx:16-23 | two persons with the same six fields are the same person |
| Contacts.WithLaws | app/pages/kontaktbogen/page.tsx:110 | writing a field's own value changes nothing; writing it twice keeps the last value |
| Kontaktbogen.InitialAllBlank | app/pages/kontaktbogen/page.tsx:32-41 | the form starts with 12 persons whose six fields are all empty, so nothing would be exported |
| Kontaktbogen.UpdateField | app/pages/kontaktbogen/page.tsx:104-113 | only the field of the one person changes; the length, the other fields and the other persons stay |
| Kontaktbogen.ShownRows | app/pages/kontaktbogen/page.tsx:115-131 | a page shows at most six persons, the k-th being the person at the page's offset plus k |
| Kontaktbogen.PagesPartition | app/pages/kontaktbogen/page.tsx:115-131 | page 1 shows persons 0–5 and page 2 persons 6–11, together all twelve once |
| Kontaktbogen.EditShownRow | app/pages/kontaktbogen/page.tsx:104-131 | editing the row shown at position k changes exactly that shown row and nothing on the other page |
| Kontaktbogen.ExportList | app/pages/kontaktbogen/page.tsx:64 | the exported persons are exactly those whose trimmed name is non-empty, in form order |
| Kontaktbogen.ClearedRowNotExported | app/pages/kontaktbogen/page.tsx:64-113 | clearing a name drops that row from the export and keeps the other rows in order |
| Kontaktbogen.Request | app/pages/kontaktbogen/page.tsx:58-66 | the request is of type "empfehlungen", carries the giver's name and only named persons, in form order |
| Kontaktbogen.Page.constructor | app/pages/kontaktbogen/page.tsx:26-44 | normal mode, not exporting, page 1, twelve empty persons, dialog closed, empty giver name |
| Kontaktbogen.Page.HandleSave | app/pages/kontaktbogen/page.tsx:46 | the name dialog opens and nothing else changes |
| Kontaktbogen.Page.Edit | app/pages/kontaktbogen/page.tsx:104-131 | an input in row k of the shown page updates person offset+k, and nothing else changes |
| Kontaktbogen.Page.ConfirmExport | app/pages/kontaktbogen/page.tsx:52-66 | with a blank giver name nothing happens; otherwise the mode becomes normal, the export starts and one request with the named persons is sent |
| Kontaktbogen.Page.ResponseArrived | app/pages/kontaktbogen/page.tsx:68-97 | the export ends and the dialog closes; a successful share on a mobile device with sharing is the delivery, otherwise "Empfehlungen-<name>.pdf" is downloaded |
| Kontaktbogen.Page.SetGeberName | app/pages/kontaktbogen/page.tsx:44-154 | the name dialog's input sets the giver's name and nothing else |
| Kontaktbogen.Page.CancelDialog | app/pages/kontaktbogen/page.tsx:155 | cancelling closes the name dialog and changes nothing else |
| Kontaktbogen.Page.SetPage | app/pages/kontaktbogen/page.tsx:30-134 | switching between the two form pages changes only the page |
| Kontaktbogen.Page.SetMode | app/pages/kontaktbogen/page.tsx:26-119 | choosing a tool changes only the mode |
| PdfDoc.AddPage | app/api/pdf/route.ts:62 | `addPage()` keeps a valid document valid and makes the new last page current |
| PdfDoc.SetPage | app/api/pdf/route.ts:176 | `setPage(n)` on an existing page keeps the document valid |
| PdfDoc.Draw | app/api/pdf/route.ts:72-75 | drawing appends one operation tagged with the current page and keeps pages and validity |
| PdfDoc.DrawTexts | app/api/pdf/route.ts:72-75 | a drawn text is added at the end of its column |
| PdfDoc.TextsAppend | app/api/pdf/route.ts:60-100 | the texts of two log parts, read one after the other, are the texts of the whole log |
| PdfDoc.DrawnAboveJoin | app/api/pdf/route.ts:148-170 | placement facts about a log and about what is appended to it combine |
| PdfRows.RowShape | app/api/pdf/route.ts:66-77 | a row with an empty value draws nothing; otherwise it appends `label:` at x = 20 and the value at x = 55 on the cursor's line of the current page and moves the cursor down one step |
| PdfRows.RowTexts | app/api/pdf/route.ts:66-77 | a row adds its label to the label column and its value to the value column |
| PdfRows.RowsFacts | app/api/pdf/route.ts:79-83 | the rows only append, on the current page, and move the cursor one step per non-empty value |
| PdfRows.RowsTexts | app/api/pdf/route.ts:79-83 | the rows add their labels and values to the two columns in field order |
| PdfRows.RowsFirst | app/api/pdf/route.ts:79 | when the first field has a value, the first thing drawn is its label at the cursor |
| PdfRows.RowsLabels | app/api/pdf/route.ts:66-83 | a label is printed exactly when some field with that key has a value |
| PdfRows.RowsValues | app/api/pdf/route.ts:66-83 | both columns gain one text per shown field, and the value column holds exactly the non-empty values |
| PdfRows.RowsPrefixText | app/api/pdf/route.ts:79-83 | the texts of the first k rows come first in a column |
| PdfRows.RowsElsewhere | app/api/pdf/route.ts:72-75 | rows write nothing outside the label and value columns |
| PdfRows.RowsValid | app/api/pdf/route.ts:66-83 | rows keep a document valid |
| PdfRows.ShownBound | app/api/pdf/route.ts:66-83 | at most every field is shown |
| PdfRows.RowsPlaced | app/api/pdf/route.ts:66-83 | rows append only texts on the current page, each at least one step above where the cursor ends |
| PdfRows.RemarkShape | app/api/pdf/route.ts:85-93 | the remark only appends, on the current page, and moves the cursor 5 per wrapped line, or not at all without a remark |
| PdfRows.RemarkTexts | app/api/pdf/route.ts:85-93 | the remark adds "Bemerkung:" to the label column, and only when there is a remark |
| PdfRoute.PdfResponseNames | app/api/pdf/route.ts:196-204 | the response is an inline application/pdf file, and different file names give different dispositions |
| PdfRoute.EmpfehlungShape | app/api/pdf/route.ts:60-100 | a recommendation starts at or above 257, on a new page exactly when the cursor was past 257; it only appends, begins with its "Name:" label at its start line, and moves the cursor 5 per shown row, the remark's height, and 12 for the separator |
| PdfRoute.EntryBodyShape | app/api/pdf/route.ts:66-99 | from where it starts, a recommendation only appends on the current page, begins with "Name:" and advances the cursor by the rows, the remark and 4 + 8 around the rule |
| PdfRoute.EmpfehlungTexts | app/api/pdf/route.ts:60-100 | a recommendation adds its labels at 20 and its one-line values at 55, wherever it starts |
| PdfRoute.EntryBodyTexts | app/api/pdf/route.ts:66-99 | what a recommendation writes does not depend on where it starts |
| PdfRoute.EmpfehlungLabels | app/api/pdf/route.ts:79-93 | the Name row is always printed ("-" for an empty name); Ort, Alter, Beruf, Telefon and Bemerkung are labelled exactly when filled in; the value column has one text per shown row |
| PdfRoute.KeyShown | app/api/pdf/route.ts:66-83 | with distinct keys, a key's label is printed exactly when its own value is not empty |
| PdfRoute.EmpfehlungenTexts | app/api/pdf/route.ts:60-100 | the loop adds, in each column, the recommendations' texts in list order |
| PdfRoute.EmpfehlungenTextsStep | app/api/pdf/route.ts:60-100 | recommendation n extends the column texts of the ones before it |
| PdfRoute.EmpfehlungenShape | app/api/pdf/route.ts:60-100 | the loop only appends, keeps the document valid with its last page current, and adds at most one page per recommendation |
| PdfRoute.EmpfehlungenFirst | app/api/pdf/route.ts:58-79 | when the cursor starts above the limit, the loop begins with the first "Name:" label at the cursor |
| PdfRoute.EmpfehlungenHeaderTexts | app/api/pdf/route.ts:51-56 | the header writes only "Empfehlungen <name>", centred |
| PdfRoute.EmpfehlungenElsewhere | app/api/pdf/route.ts:66-99 | the recommendations write only in the label and value columns |
| PdfRoute.EmpfehlungenDocFacts | app/api/pdf/route.ts:41-100 | the document is valid with at most one page per recommendation beyond the first; its title column holds only the title; its label and value columns are the recommendations' texts in order; the first "Name:" is at y = 50 on page 1 |
| PdfRoute.CreateEmpfehlungenPdf | app/api/pdf/route.ts:34-103 | the loop builds exactly the specified document, with the facts of `EmpfehlungenDocFacts` |
| PdfRoute.RouteListedLayout | app/api/pdf/route.ts:123-170 | after the listing the header is unchanged, the document is valid with its last page current, it has at most one extra page per matched question, and everything listed lies at most 14 below the break line 267 |
| PdfRoute.RouteListedTexts | app/api/pdf/route.ts:123-170 | title, text and hint in the column at 60; the section title and then the numbered matched questions at 20; their chosen answers at 24 |
| PdfRoute.RouteListedTextsAt | app/api/pdf/route.ts:123-170 | every column of the listed document is the header's texts followed by the listing's |
| PdfRoute.FootnoteDrawn | app/api/pdf/route.ts:174-187 | the footnote is the last operation, on the last page, and adds one text to the left column only |
| PdfRoute.ChancenblattDocFacts | app/api/pdf/route.ts:109-187 | the Chancenblatt keeps its header, lists exactly the matched questions (numbered by table position, so numbers may skip) with their answers, adds at most one page per matched question, and ends with the footnote on the last page exactly when a customer name is given |
| PdfRoute.CreateChancenblattPdf | app/api/pdf/route.ts:109-190 | the steps build exactly the specified document, named "Chancenblatt-<type>.pdf", with the facts of `ChancenblattDocFacts` |
| PdfRoute.Post | app/api/pdf/route.ts:15-28 | "empfehlungen" and "chancenblatt" answer with their PDF, and every other type with status 400 "Invalid PDF type" |
| ChancenblattExport.BlockShape | app/pages/chancenblatt/ChancenblattExport.ts:87-105 | a question block appends three operations on the current page between y and y + 14, the rule first |
| ChancenblattExport.BlockTexts | app/pages/chancenblatt/ChancenblattExport.ts:93-104 | a block writes the numbered question at 20 and the answer at 24 |
| ChancenblattExport.ListOneAdvance | app/pages/chancenblatt/ChancenblattExport.ts:77-106 | an unmatched question draws nothing; a matched one starts a new page at 30 exactly when y is past the limit and moves the cursor 26 below where its block starts |
| ChancenblattExport.ListOneAppends | app/pages/chancenblatt/ChancenblattExport.ts:77-106 | one round only appends |
| ChancenblattExport.ListOneTexts | app/pages/chancenblatt/ChancenblattExport.ts:77-106 | one round adds the numbered question and its answer, when matched, to their columns |
| ChancenblattExport.ListedAtStep | app/pages/chancenblatt/ChancenblattExport.ts:77-106 | the listed texts of n questions extend those of n - 1 by round n |
| ChancenblattExport.ListAllTexts | app/pages/chancenblatt/ChancenblattExport.ts:77-106 | the listing adds exactly the matched questions with their table numbers at 20 and their answers at 24, in table order, and nothing elsewhere |
| ChancenblattExport.ListAllTextsStep | app/pages/chancenblatt/ChancenblattExport.ts:77-106 | round n extends the listed texts of the rounds before |
| ChancenblattExport.ListAllAppends | app/pages/chancenblatt/ChancenblattExport.ts:77-106 | the listing only appends, and leaves the cursor alone when it draws nothing |
| ChancenblattExport.ListOneBounds | app/pages/chancenblatt/ChancenblattExport.ts:77-106 | one round keeps the document valid, adds a page only for a matched question and draws at most 14 below the limit |
| ChancenblattExport.ListAllBounds | app/pages/chancenblatt/ChancenblattExport.ts:77-106 | the listing draws at most 14 below the limit and adds at most one page per matched question, with the last page current |
| ChancenblattExport.ListAllStart | app/pages/chancenblatt/ChancenblattExport.ts:82-90 | when something is listed and the cursor is not past the limit, the first thing drawn is the rule at the cursor |
| ChancenblattExport.ListAnswers | app/pages/chancenblatt/ChancenblattExport.ts:77-106 | the loop computes exactly the listing of all questions |
| ChancenblattExport.HeaderTexts | app/pages/chancenblatt/ChancenblattExport.ts:48-75 | the header writes title, text and hint beside the logo and only the section title in the question column |
| ChancenblattExport.ListedTextsAt | app/pages/chancenblatt/ChancenblattExport.ts:48-106 | every column of the listed document is the header's texts followed by the listing's |
| ChancenblattExport.ListedTexts | app/pages/chancenblatt/ChancenblattExport.ts:48-106 | the three text columns of the listed document |
| ChancenblattExport.ListedLayout | app/pages/chancenblatt/ChancenblattExport.ts:48-106 | the listed document keeps the header, is valid with its last page current, draws at most 14 below 260, and starts its listing with the rule 10 below the section title when something is listed |
| ChancenblattExport.FooterFacts | app/pages/chancenblatt/ChancenblattExport.ts:77-111 | the finished document carries all the listed facts and ends with the footer at y = 285 on its last page |
| ChancenblattExport.ExportChancenblattPdf | app/pages/chancenblatt/ChancenblattExport.ts:24-114 | the section title sits 20 below the lower of logo and header text; the numbered matched questions and their answers follow in table order with breaks past 260; the footer is last, on the last page; the file is "chancenblatt.pdf" |
| ExportEmpfehlungen.HeaderShape | components/export/exportEmpfehlungen.ts:72-86 | the header appends the logo and then the title, centred on the header line, on the current page |
| ExportEmpfehlungen.HeaderTexts | components/export/exportEmpfehlungen.ts:83-85 | the header writes only "Empfehlungen <name>", in the centre column |
| ExportEmpfehlungen.EntryStartShape | components/export/exportEmpfehlungen.ts:100-105 | an entry starts at or above 270; past it a new page is added, made current and given its title, and the cursor returns to 50 |
| ExportEmpfehlungen.EntryStartTexts | components/export/exportEmpfehlungen.ts:100-105 | a page break adds the title to the title column and nothing elsewhere |
| ExportEmpfehlungen.EntryBodyShape | components/export/exportEmpfehlungen.ts:107-144 | an entry only appends, on the current page, begins with "Name:" at the cursor, and moves the cursor 6 for the name, 5 per filled-in row, 5 per remark line, and 7 |
| ExportEmpfehlungen.EntryBodyTexts | components/export/exportEmpfehlungen.ts:107-142 | an entry adds "Name:" and the name or "-", then each filled-in row's label and value, and "Bemerkung:" for a remark |
| ExportEmpfehlungen.EntryTextNoTitle | components/export/exportEmpfehlungen.ts:107-142 | an entry writes nothing in the title column |
| ExportEmpfehlungen.OneTexts | components/export/exportEmpfehlungen.ts:99-145 | one round adds a title exactly when it breaks the page, and the entry's texts |
| ExportEmpfehlungen.OneShape | components/export/exportEmpfehlungen.ts:99-145 | one round keeps the document valid with its last page current, adds a page exactly when the cursor was past 270, and starts with the entry's name label or the new page's title |
| ExportEmpfehlungen.FirstPageDrawn | components/export/exportEmpfehlungen.ts:92-93 | the first page's header is a valid start: one page, the title once |
| ExportEmpfehlungen.OneTitleText | components/export/exportEmpfehlungen.ts:99-145 | one round writes a title exactly when it starts a new page |
| ExportEmpfehlungen.TitlesStep | components/export/exportEmpfehlungen.ts:100-105 | a page break that carries its title keeps the title once on every page |
| ExportEmpfehlungen.OneKeepsTexts | components/export/exportEmpfehlungen.ts:99-145 | the label and value columns grow by the entry's texts, in list order |
| ExportEmpfehlungen.OneKeepsPages | components/export/exportEmpfehlungen.ts:99-145 | one round keeps the document valid, at most one page per entry, the title once on every page, and the first name label at 50 on page 1 |
| ExportEmpfehlungen.OneKeepsColumns | components/export/exportEmpfehlungen.ts:99-145 | one round keeps the label and value columns in list order and the page-label column empty |
| ExportEmpfehlungen.OneKeeps | components/export/exportEmpfehlungen.ts:99-145 | one round keeps the loop invariant one entry further |
| ExportEmpfehlungen.EntryTextElsewhere | components/export/exportEmpfehlungen.ts:107-142 | an entry writes only at x = 20 and x = 55 |
| ExportEmpfehlungen.AllTextElsewhere | components/export/exportEmpfehlungen.ts:99-145 | the entries write only at x = 20 and x = 55 |
| ExportEmpfehlungen.PageLabelsAt | components/export/exportEmpfehlungen.ts:157-165 | the i-th page label reads "<i+1>/<pageCount>" |
| ExportEmpfehlungen.LabelEntriesAt | components/export/exportEmpfehlungen.ts:157-165 | the i-th label is drawn on page i + 1 at the bottom right |
| ExportEmpfehlungen.LabelEntriesSnoc | components/export/exportEmpfehlungen.ts:157-165 | labelling page i appends its label after those of the earlier pages |
| ExportEmpfehlungen.LabelTexts | components/export/exportEmpfehlungen.ts:159-164 | the labels write only in their own column, in page order |
| ExportEmpfehlungen.LabelPage | components/export/exportEmpfehlungen.ts:158-164 | one round makes page i current and draws "<i>/<pageCount>" on it |
| ExportEmpfehlungen.NumberPages | components/export/exportEmpfehlungen.ts:151-166 | a document of more than one page gets one label per page, on that page, in page order; a one-page document gets none |
| ExportEmpfehlungen.LabelsColumn | components/export/exportEmpfehlungen.ts:157-165 | labels go only to their own column |
| ExportEmpfehlungen.LabelsPlaced | components/export/exportEmpfehlungen.ts:157-165 | every label lands on its page and every title stays |
| ExportEmpfehlungen.LabelsAppended | components/export/exportEmpfehlungen.ts:151-166 | numbering keeps the entries' columns and the titles and adds every label on its page |
| ExportEmpfehlungen.BreakPage | components/export/exportEmpfehlungen.ts:100-105 | the loop's page break is the specified one |
| ExportEmpfehlungen.DrawBody | components/export/exportEmpfehlungen.ts:107-144 | the loop body draws the specified entry |
| ExportEmpfehlungen.DrawEntry | components/export/exportEmpfehlungen.ts:99-145 | one pass is one specified round |
| ExportEmpfehlungen.DrawEntries | components/export/exportEmpfehlungen.ts:92-145 | the document after all entries satisfies the loop invariant for the whole list |
| ExportEmpfehlungen.NumberedFacts | components/export/exportEmpfehlungen.ts:147-166 | the numbered document keeps what the entries drew and has every page labelled "<p>/<pageCount>" when it has more than one page |
| ExportEmpfehlungen.ExportEmpfehlungenPdf | components/export/exportEmpfehlungen.ts:17-173 | the file is "Empfehlungen <name>.pdf"; at most one page per entry beyond the first; the title once on every page; labels and values in list order; the first name at y = 50 on page 1; page labels "<p>/<pageCount>" on every page exactly when there is more than one page |
| ExportController.FrontPages | components/export/exportController.ts:59-88 | page 1 holds the notes block exactly when the notes are not blank (after trimming), and only the logo, the title and the notes; page 2 begins with the logo and the "Empfehlungen" title |
| ExportController.FrontEntries | components/export/exportController.ts:59-88 | the two front pages as drawn, in order |
| ExportController.FrontTexts | components/export/exportController.ts:59-88 | the front pages write no single-line text |
| ExportController.FrontFacts | components/export/exportController.ts:59-88 | the front pages draw no separator, nothing below the lowest line, and only on pages 1 and 2 |
| ExportController.NoTexts | components/export/exportController.ts:59-88 | a log without single-line texts writes nothing in any column |
| ExportController.NoRules | components/export/exportController.ts:59-88 | a log without separator lines counts none |
| ExportController.RulesOverTexts | components/export/exportController.ts:105-125 | the rows of a block draw no separator |
| ExportController.PersonStartFacts | components/export/exportController.ts:98-103 | a block starts where its 52 mm of room reaches no lower than 260, on a new page at 40 only when it has to, and draws nothing there |
| ExportController.PersonBodyShape | components/export/exportController.ts:105-134 | a block only appends, on the current page, and moves the cursor 7 per filled-in row and 12 after a separator |
| ExportController.PersonBodyPlaced | components/export/exportController.ts:105-134 | a block that starts where its room fits draws nothing below the lowest line |
| ExportController.PersonBodyRules | components/export/exportController.ts:127-134 | a block draws one separator unless it is the last |
| ExportController.PersonBodyTexts | components/export/exportController.ts:105-125 | a block adds "<label>:" at 20 and the value at 55 for each filled-in field, in field order |
| ExportController.PersonBodyFirst | components/export/exportController.ts:120 | a block with a name begins with "Name:" at the cursor |
| ExportController.BlockKeepsPages | components/export/exportController.ts:94-135 | one block keeps the document valid, at most one more page per person, the front pages unchanged, every block on page 2 or later and above the lowest line |
| ExportController.BlockKeepsColumns | components/export/exportController.ts:94-135 | one block keeps the columns in order and one separator after each person but the last |
| ExportController.BlockKeepsFirst | components/export/exportController.ts:90-120 | the first person's name label stays at y = 70 on page 2 |
| ExportController.BlockKeeps | components/export/exportController.ts:94-135 | one block keeps the loop invariant one person further |
| ExportController.FrontListed | components/export/exportController.ts:59-90 | the two front pages are a valid start for the list |
| ExportController.DrawFront | components/export/exportController.ts:59-90 | the front pages drawn are the specified ones, on two pages |
| ExportController.DrawPerson | components/export/exportController.ts:94-134 | one pass is one specified block |
| ExportController.ExportKontaktbogenPdf | components/export/exportController.ts:42-153 | the file is "Firmenvorstellung-<geberName>.pdf"; the front pages come first; every block is on page 2 or later and above the lowest line; at most one page per person beyond two; labels and values in person order; one separator fewer than persons; the cleanup callback gets true exactly when given |
| EmpfehlungFlow.LastRingStepIsSix | app/pages/empfehlung/EmpfehlungFlow.tsx:20-31 | the ring may still appear up to step 6, one before the last of the eight images |
| EmpfehlungFlow.Flow.constructor | app/pages/empfehlung/EmpfehlungFlow.tsx:8-17 | the flow mounts at step 0 with the ring hidden and the mount timer pending |
| EmpfehlungFlow.Flow.MountTimer | app/pages/empfehlung/EmpfehlungFlow.tsx:11-14 | the mount timer shows the ring and changes nothing else |
| EmpfehlungFlow.Flow.Click | app/pages/empfehlung/EmpfehlungFlow.tsx:33-45 | a click on the shown ring hides it, shows and wipes in the next image, and starts a ring timer exactly when the old step is below the last ring step |
| EmpfehlungFlow.Flow.RingTimer | app/pages/empfehlung/EmpfehlungFlow.tsx:41-43 | a pending ring timer brings the ring back where it can be clicked |
| EmpfehlungFlow.FinalStepIsQuiet | app/pages/empfehlung/EmpfehlungFlow.tsx:39-44 | once the last image shows, no ring is shown and no timer can bring it back |
| FirmenEmpfehlungFlow.LastStepIsSeven | app/firmenvorstellung/pages/empfehlung/EmpfehlungFlow.tsx:15-26 | the last step is 7, the eighth image |
| FirmenEmpfehlungFlow.Flow.constructor | app/firmenvorstellung/pages/empfehlung/EmpfehlungFlow.tsx:12-36 | the flow mounts at step 0, ring hidden, its timer pending, nothing completed |
| FirmenEmpfehlungFlow.Flow.Click | app/firmenvorstellung/pages/empfehlung/EmpfehlungFlow.tsx:28-48 | a click at the last step is ignored; otherwise the ring hides, the step advances, a new ring timer runs only below the last step, and reaching the last step calls onComplete once when there is one |
| FirmenEmpfehlungFlow.Flow.RingTimer | app/firmenvorstellung/pages/empfehlung/EmpfehlungFlow.tsx:31-33 | the ring timer shows the ring, clickable below the last step |
| FirmenEmpfehlungFlow.Flow.NewCallback | app/firmenvorstellung/pages/empfehlung/EmpfehlungFlow.tsx:44-48 | a new onComplete function at the last step is called once more |
| KapitalmarktPages.LastIndexIsSeven | app/pages/kapitalmarkt/page.tsx:33-42 | the last of the eight images is "ovb.png", at index 7 |
| KapitalmarktPages.Page.constructor | app/pages/kapitalmarkt/page.tsx:18-29 | the page mounts unstarted at image 0 with the next trigger on and no hint, trigger or timer |
| KapitalmarktPages.Page.Start | app/pages/kapitalmarkt/page.tsx:101-106 | the start circle starts the images at 0 and hides the next trigger until its timer fires |
| KapitalmarktPages.Page.Next | app/pages/kapitalmarkt/page.tsx:44-68 | a click moves one image on below the last (ignored at the last), hides the next trigger and starts its timer; reaching the last image resets the four hint flags and starts the left trigger's timer |
| KapitalmarktPages.Page.NextTimer | app/pages/kapitalmarkt/page.tsx:48 | a next timer shows the next trigger again |
| KapitalmarktPages.Page.LeftTimer | app/pages/kapitalmarkt/page.tsx:63-65 | the last-image timer shows the left trigger |
| KapitalmarktPages.Page.LeftTriggerClick | app/pages/kapitalmarkt/page.tsx:71-78 | a click on the left trigger opens the left hint, hides the trigger and starts the right trigger's timer |
| KapitalmarktPages.Page.RightTimer | app/pages/kapitalmarkt/page.tsx:75-77 | a right timer shows the right trigger, which exists only after the left hint |
| KapitalmarktPages.Page.RightTriggerClick | app/pages/kapitalmarkt/page.tsx:155-176 | a click on the right trigger opens the right hint and the trigger disappears; the left hint stays |
| KapitalmarktStandalone.IndexOf | app/kapitalmarkt/page.tsx:37 | indexOf gives the first position of the name, or -1 exactly when it is absent |
| KapitalmarktStandalone.OvbIsLast | app/kapitalmarkt/page.tsx:26-37 | "ovb.png" is at index 7 and nowhere else, so isOVB holds exactly on the last image |
| KapitalmarktStandalone.StrokeWidth | app/kapitalmarkt/page.tsx:115-118 | erasing uses width 30 and drawing width 4 |
| KapitalmarktStandalone.Page.constructor | app/kapitalmarkt/page.tsx:9-22 | the page mounts unclicked at image 0 in normal mode with the next trigger on, no info, no timer and no canvas context |
| KapitalmarktStandalone.Page.DisplayedImages | app/kapitalmarkt/page.tsx:382 | the images 0 to imageIndex are displayed, in order, the current one last |
| KapitalmarktStandalone.Page.Start | app/kapitalmarkt/page.tsx:320-327 | the start circle hides the next trigger and starts its timer |
| KapitalmarktStandalone.Page.Next | app/kapitalmarkt/page.tsx:39-52 | a click moves one image on below the last and starts the next timer; reaching the OVB image hides the next circle and starts the left trigger's timer |
| KapitalmarktStandalone.Page.NextTimer | app/kapitalmarkt/page.tsx:43 | a next timer shows the next trigger, which stays hidden on the OVB image |
| KapitalmarktStandalone.Page.LeftTimer | app/kapitalmarkt/page.tsx:50 | the OVB timer shows the left trigger |
| KapitalmarktStandalone.Page.LeftClick | app/kapitalmarkt/page.tsx:53-57 | the left click opens the left info, hides its trigger and starts the right trigger's timer |
| KapitalmarktStandalone.Page.RightTimer | app/kapitalmarkt/page.tsx:56 | a right timer shows the right trigger |
| KapitalmarktStandalone.Page.RightClick | app/kapitalmarkt/page.tsx:59-62 | the right click opens the right info and hides its trigger |
| KapitalmarktStandalone.Page.SetMode | app/kapitalmarkt/page.tsx:12 | choosing a tool sets the mode and leaves the drawing alone |
| KapitalmarktStandalone.Page.Resize | app/kapitalmarkt/page.tsx:64-96 | sizing the canvas creates the context with width 4 and normal compositing |
| KapitalmarktStandalone.Page.StartDrawing | app/kapitalmarkt/page.tsx:106-125 | a stroke starts only in draw or erase mode and with a context; erase composites with destination-out at width 30, draw at width 4; the path begins at the point |
| KapitalmarktStandalone.Page.DrawTo | app/kapitalmarkt/page.tsx:127-139 | a move extends the path only while a stroke is in progress |
| KapitalmarktStandalone.Page.StopDrawing | app/kapitalmarkt/page.tsx:141-143 | stopping ends the stroke and keeps what was drawn |
| AnalyseErklaerung.Analyse.constructor | app/pages/abs/AnalyseErklaerung.tsx:9-21 | the scene mounts without zoom, blinking or text, with the zoom timer pending |
| AnalyseErklaerung.Analyse.ZoomTimer | app/pages/abs/AnalyseErklaerung.tsx:17-28 | the zoom timer zooms in and the zoom effect starts the first blinking's timer |
| AnalyseErklaerung.Analyse.Blink1Timer | app/pages/abs/AnalyseErklaerung.tsx:25 | the first blinking starts and B takes clicks |
| AnalyseErklaerung.Analyse.Blink2Timer | app/pages/abs/AnalyseErklaerung.tsx:38-40 | the second blinking starts and B takes clicks |
| AnalyseErklaerung.Analyse.Click | app/pages/abs/AnalyseErklaerung.tsx:31-50 | the first click stops the blinking, shows the advantage text and starts the second blinking's timer without calling onDone; a later click hides the text and calls onDone when given, which happens only after the text was shown |
| FirmenAnalyseErklaerung.Analyse.constructor | app/firmenvorstellung/pages/abs/AnalyseErklaerung.tsx:10-24 | the scene mounts without zoom, blinking or text, with the zoom timer pending |
| FirmenAnalyseErklaerung.Analyse.ZoomTimer | app/firmenvorstellung/pages/abs/AnalyseErklaerung.tsx:20-31 | the zoom timer zooms in and starts the first blinking's timer |
| FirmenAnalyseErklaerung.Analyse.Blink1Timer | app/firmenvorstellung/pages/abs/AnalyseErklaerung.tsx:28 | the first blinking starts and B takes clicks |
| FirmenAnalyseErklaerung.Analyse.Blink2Timer | app/firmenvorstellung/pages/abs/AnalyseErklaerung.tsx:40-42 | the second blinking starts and B takes clicks |
| FirmenAnalyseErklaerung.Analyse.Click | app/firmenvorstellung/pages/abs/AnalyseErklaerung.tsx:34-51 | the first click shows the advantage text and starts the second blinking's timer; a later click calls onDone when given and leaves the text on screen, so the text is shown whenever onDone runs |
| ZieleFlow.ImageTimers | app/pages/lebensplan/ZieleFlow.tsx:55-65 | the first click schedules one timer per image, image k as the k-th |
| ZieleFlow.Revealed | app/pages/lebensplan/ZieleFlow.tsx:57-63 | after the first n image timers exactly images 0 to n - 1 are visible |
| ZieleFlow.Flow.constructor | app/pages/lebensplan/ZieleFlow.tsx:13-40 | the scene mounts at step 0 with the ring shown, no image, no situation, no final ring and no timer |
| ZieleFlow.Flow.Schedule | app/pages/lebensplan/ZieleFlow.tsx:35-38 | scheduling remembers the timer after those before it and changes nothing else |
| ZieleFlow.Flow.Click | app/pages/lebensplan/ZieleFlow.tsx:42-91 | the final ring hides itself and calls onDone; the first click hides the ring and schedules the four images and then the ring; the second shows the situation and schedules the final ring; any other click does nothing |
| ZieleFlow.Flow.FireNext | app/pages/lebensplan/ZieleFlow.tsx:55-86 | timers fire in order: an image timer makes its image visible, the ring timer shows the ring after all four images, the final timer shows the final ring; a visible image stays visible |
| ZieleFlow.Flow.Unmount | app/pages/lebensplan/ZieleFlow.tsx:28-33 | unmounting cancels and forgets every scheduled timer |
| SituationsPfeil.Scene.constructor | app/pages/lebensplan/SituationsPfeil.tsx:9-22 | the scene mounts at step 0 with nothing shown, no problem line and no timer fired |
| SituationsPfeil.Scene.MountTimer | app/pages/lebensplan/SituationsPfeil.tsx:15-17 | the mount timers show the products first and then the clickable ring |
| SituationsPfeil.Scene.RingClick | app/pages/lebensplan/SituationsPfeil.tsx:232-240 | a ring click advances the step by one; entering step 3 restarts the problem lines at 0 with their timers running; the click that leaves step 3 hides the ring, calls onDone once and shows the checklist, and cancels the pending problem timers |
| SituationsPfeil.Scene.ProblemTimer | app/pages/lebensplan/SituationsPfeil.tsx:24-38 | the next problem timer draws the next line, which fades in, and the timers stop after the third |
| Grundskel.Scene.constructor | app/pages/werbung/grundskel.tsx:20-36 | the scene waits at -1, or starts at 0 at once when the page has already started it |
| Grundskel.Scene.SetStart | app/pages/werbung/grundskel.tsx:32-36 | the first time start is set the scene leaves -1 for 0 and its timer starts; otherwise nothing changes |
| Grundskel.Scene.Timer | app/pages/werbung/grundskel.tsx:38-55 | each step's timer advances the step up to 5, and at 5 the timer shows the ring and none is left |
| Grundskel.Scene.RingClick | app/pages/werbung/grundskel.tsx:57-60 | the ring click hides the ring and calls onFinish once |
| Werbung.RingDelay | app/pages/werbung/werbung.tsx:25 | the ring comes back after 1500 ms below step 3 and after 2500 ms from step 3 on |
| Werbung.Flow.constructor | app/pages/werbung/werbung.tsx:12-27 | the scene mounts at step 0 with the ring hidden and a 1500 ms ring timer |
| Werbung.Flow.RingClick | app/pages/werbung/werbung.tsx:18-32 | a click hides the ring and advances the step; below the last step a ring timer with the step's delay starts, at the last step none |
| Werbung.Flow.RingTimer | app/pages/werbung/werbung.tsx:25 | the ring timer shows the clickable ring |
| AbsFlowController.SequenceOrder | app/pages/abs/FlowController.tsx:21-41 | by their delays, each arrow's reveal fires right after its visibility, and A's blinking fires last |
| AbsFlowController.Flow.constructor | app/pages/abs/FlowController.tsx:6-19 | the opening mounts at step 0 with no arrow, no blinking and no timer |
| AbsFlowController.Flow.StartClick | app/pages/abs/FlowController.tsx:46-48 | the start circle enters step 1, whose effect starts the timer sequence, and the arrangement appears |
| AbsFlowController.Flow.FireNext | app/pages/abs/FlowController.tsx:21-41 | the next timer fires; A has moved up (step 2) and an arrow is revealed only once it is visible |
| AbsFlowController.Flow.ClickA | app/pages/abs/FlowController.tsx:96 | a click on A calls onDone exactly when A blinks and onDone is given |
| AbsPage.ExactlyOneRendered | app/pages/abs/page.tsx:51-67 | for every combination of the three flags exactly one of the four sub-flows is rendered |
| AbsPage.Rendered | app/pages/abs/page.tsx:51-67 | the sub-flow on screen is the one whose render condition holds |
| AbsPage.NextPhase | app/pages/abs/page.tsx:52-67 | each completion leads to the next of the four sub-flows; the service sub-flow has no completion |
| AbsPage.Page.constructor | app/pages/abs/page.tsx:18-23 | the page starts in normal mode with the opening on screen |
| AbsPage.Page.Complete | app/pages/abs/page.tsx:53-63 | a completion of the rendered sub-flow puts the next sub-flow on screen |
| AbsPage.Page.SetMode | app/pages/abs/page.tsx:19-48 | changing the tool leaves the sub-flow on screen |
| AbsPage.CompletionsAdvance | app/pages/abs/page.tsx:51-67 | n completions from a phase are possible exactly while they stay within the four phases, each moves one phase on, and the service sub-flow is reached after exactly 3 minus the phase's position |
| FirmenAbsPage.StoreScreenshot | app/firmenvorstellung/pages/abs/page.tsx:61-72 | a captured image is stored under its name; a failed one leaves the session storage unchanged; no other key changes |
| FirmenAbsPage.Page.constructor | app/firmenvorstellung/pages/abs/page.tsx:20-34 | the page starts in draw mode with no drawing, the opening on screen, no button and no screenshot |
| FirmenAbsPage.Page.FlowDone | app/firmenvorstellung/pages/abs/page.tsx:79-81 | the opening's completion starts the analysis, with the drawing kept |
| FirmenAbsPage.Page.AnalyseDone | app/firmenvorstellung/pages/abs/page.tsx:85-94 | the analysis' completion stores "absScreenshot1" when captured, clears the drawing and starts the advice sub-flow, also when the screenshot failed |
| FirmenAbsPage.Page.BeratungDone | app/firmenvorstellung/pages/abs/page.tsx:97-106 | the advice's completion stores "absScreenshot2" when captured, clears the drawing and starts the service sub-flow |
| FirmenAbsPage.Page.ServiceDone | app/firmenvorstellung/pages/abs/page.tsx:109-111 | the service's completion starts the button's timer |
| FirmenAbsPage.Page.WeiterTimer | app/firmenvorstellung/pages/abs/page.tsx:110 | the timer shows the "Weiter" button |
| FirmenAbsPage.Page.Weiter | app/firmenvorstellung/pages/abs/page.tsx:114-123 | "Weiter" hides the button, stores "absScreenshot3" with the drawing kept, and pushes the advertising route, also when the screenshot failed |
| FirmenAbsPage.Page.SetPaths | app/firmenvorstellung/pages/abs/page.tsx:21 | the drawing layer replaces the paths |
| FirmenAbsPage.Page.SetMode | app/firmenvorstellung/pages/abs/page.tsx:20-36 | changing the tool leaves drawing and phase alone |
| FirmenAbsPage.ShotsInOrder | app/firmenvorstellung/pages/abs/page.tsx:85-123 | once the page has navigated on, the screenshots were taken as "absScreenshot1", "absScreenshot2", "absScreenshot3" in that order |
| MainActivity.ImmersiveFlagsValue | android/app/src/main/java/com/ovb/firmenvorstellung/MainActivity.java:43-50 | the fallback's visibility is the six flags or-ed together, 0x1706, and each of the six is set in it |
| MainActivity.HideSystemUi | android/app/src/main/java/com/ovb/firmenvorstellung/MainActivity.java:28-52 | from API level 30, with an insets controller, the system bars are hidden with swipe-to-show behaviour; without a controller nothing changes; below 30 the legacy immersive flags are set |
| MainActivity.HideIdempotent | android/app/src/main/java/com/ovb/firmenvorstellung/MainActivity.java:28-52 | hiding twice is the same as hiding once |
| MainActivity.HiddenAfterHide | android/app/src/main/java/com/ovb/firmenvorstellung/MainActivity.java:28-52 | after hiding, the bars are hidden on every device that offers a way to hide them |
| MainActivity.Activity.constructor | android/app/src/main/java/com/ovb/firmenvorstellung/MainActivity.java:13 | a new activity has made no base calls |
| MainActivity.Activity.HideSystemUI | android/app/src/main/java/com/ovb/firmenvorstellung/MainActivity.java:28-52 | hideSystemUI applies the specified hiding to the window and nothing else |
| MainActivity.Activity.OnCreate | android/app/src/main/java/com/ovb/firmenvorstellung/MainActivity.java:14-18 | onCreate calls the base first and then hides the system UI |
| MainActivity.Activity.OnWindowFocusChanged | android/app/src/main/java/com/ovb/firmenvorstellung/MainActivity.java:20-26 | the base is told first; the UI is hidden again exactly when focus is gained |
| StepCounter.Advance | app/firmenvorstellung/pages/empfehlung/EmpfehlungFlow.tsx:38-42 | a guarded click moves the step up by one below the last step and leaves it otherwise, never past the last step |
| StepCounter.AdvanceTimesReaches | app/firmenvorstellung/pages/empfehlung/EmpfehlungFlow.tsx:38-42 | k clicks from i reach min(i + k, last) |
| StepCounter.ClicksToLast | app/firmenvorstellung/pages/empfehlung/EmpfehlungFlow.tsx:38-42 | from 0, the last step is reached exactly after last clicks or more |

## Left out

- Fonts, font sizes, colours and line widths of the PDFs are not modelled; only what is drawn, where, and on which page.
- The logo image of the PDFs is an opaque operation; its height is a parameter, and the images' file loading is not modelled.
- `splitTextToSize` is a parameter, so the number of remark or notes lines is whatever it returns.
- Timer delays are not modelled, only the order of callbacks where one origin fixes it; concurrent async handlers are taken as atomic events.
- DOM rendering, screen capture (`html2canvas`), the canvas resize measurements and the `getPoint` coordinate transform are browser I/O; a capture's outcome is a parameter.
- KapitalmarktStandalone.Page.Resize: setting `canvas.width` resets the 2D context, clearing its current path and the drawn bitmap; the model keeps `path` as it was.
- The `contentHeight > 0` gate of the company ABS page is layout and is not modelled.
- Only the unmount of `ZieleFlow` is modelled; other scenes cancel timers on unmount with the same pattern, and their unmounting is not modelled.
- The laser overlay, `PulseCircle` and the other rendering components only draw.
- `BeratungErklaerung.tsx` and `ServiceErklaerung.tsx` are not part of this model; the ABS pages model their completion as `Complete` and `BeratungDone` or `ServiceDone`.
- app/pages/chancenblatt/ChancenblattQuestions.ts is not part of this model; the flow and both Chancenblatt PDFs use the table of app/firmenvorstellung/pages/chancenblatt/ChancenblattQuestions.ts.
- Decimal.Trim: removes the ASCII white space characters only; the other Unicode white space `trim()` also strips (no-break space, line and paragraph separators) is kept.
- FolderIcon.UpperCase: maps the Latin-1 lower-case letters (`a`-`z`, `à`-`þ` except `÷`, `ß` to "SS", `ÿ`, `µ`); lower-case letters beyond Latin-1 (Greek, Cyrillic, Latin Extended), which `toUpperCase()` also capitalises, are left unchanged; `charAt(0)` is taken as one Unicode character, not one UTF-16 code unit.
- Floating-point values (the 2.55 × percent lift, layout sizes, the image ratio) are left out; the lift of the folder icon is the integer 51.
- `sessionStorage.setItem` throwing (a full storage) is not modelled.
- MinimizedApps.Registry.GetMinimizedApps, MinimizedApps.Registry.AddMinimizedApp and MinimizedApps.Registry.RemoveMinimizedApp: the stored list holds the decoded entries; extra fields of a stored object, which the source filters and writes back untouched, are not kept.
- HexText.ParseIntHexDigits: states the exact value of the digits; `parseInt` returns a double, which rounds values above 2^53, so for texts of more than 13 significant hex digits the model's value can differ from the source's.
- HexText.ParseIntHex: the same rounding above 2^53 is not modelled; for example the source reads "#10000000000001" as 2^56, whose 32-bit view is 0, where `FolderIcon.ColorBits` gives 1, so `lightenColor` of such a text differs.
- PdfRoute.Post: the body is a typed record; a request body that is not JSON (`req.json()` rejects), a `null` body (destructuring `type` throws) and a missing or non-array `empfehlungen` (`forEach` throws) all end in a 500 response in the source and are not modelled.
- NotesContext.NotesProvider.Save: writes the notes even when the stored item is `Inaccessible`; `localStorage.setItem` has no `try` around it and throws there, and the model does not capture that exception.
- NotesContext.NotesProvider.SetText, NotesContext.NotesProvider.SetDrawing and NotesContext.NotesProvider.constructor: save through the same write, so the same exception on inaccessible storage is not captured.
- PenContext.PenProvider.Save: writes the settings even when the stored item is `Inaccessible`, where the source's unguarded `localStorage.setItem` throws; the exception is not captured.
- PenContext.PenProvider.SetColor, PenContext.PenProvider.SetWidth and PenContext.PenProvider.constructor: save through the same write, so the same exception on inaccessible storage is not captured.
- The `BridgeActivity` life cycle and the system bars coming back on a swipe are platform behaviour outside the code.
- The network calls of the contact form (`fetch`, the blob download and `navigator.share`) are modelled only as the request sent and the response received.
- MinimizedApps.SortNewestFirst: proves the result sorted newest first and a permutation of its input, but not that equal timestamps keep their stored order (JavaScript's sort is stable).
- PenContext.PenProvider.Reload: requires both settings to be truthy, because a falsy setting that was saved loads back as its default.
- KapitalmarktStandalone.Page.IsOvb: written against the last index rather than `indexOf("ovb.png")`; `OvbIsLast` proves the two agree.
- DrawingSvg: the signature of the shown component, which owns its paths and takes only the mode, is modelled, not the props that callers pass.

## Findings

| source | as written | input that shows it | evidently intended | confidence | as-written member | corrected member |
|---|---|---|---|---|---|---|
| components/FolderIcon.tsx:173 | the red channel is `num >> 16` without a mask, so a colour with more than six hex digits keeps its upper bits, and `>>` on a value with the top bit set gives a negative red | "#80000000" is lightened into a nine-character text instead of `#rrggbb` | each channel read as eight bits, so the result is always `#` and six hex digits | not executed | FolderIcon.LightenNegativeBreaksFormat | FolderIcon.LightenMaskedFormat |
