# Canvas node and canvas header of the flow editor, modelled in Dafny

This project models the logic inside two React views of the flow editor's
canvas. The views are `CanvasNode`, which renders one node of a flow, and
`CanvasHeader`, the toolbar above the canvas. Most of both files is markup.
What is modelled is the logic the markup is bound to:

- **Version warning** (`VersionPolicy`). Each node is looked up by name in
  the component registry. The first rule that fires wins. A missing or zero
  `version` gives "Node outdated", an older version gives "Node version V
  outdated", and a `DEPRECATING` badge gives the deprecation notice. When no
  rule fires, the previous warning stays.
- **Category styling** (`CategoryStyle`). There are sixteen category names
  and an explicit default. They decide the selected border gradient, the
  selected glow, the header background and the label colour.
- **Parameters** (`CanvasNode`). Two things are derived from `inputParams`.
  The node renders its visible parameters. The additional-parameters dialog
  gets the parameters that are both visible and additional. The button for
  that dialog is shown when any parameter is additional, hidden or not.
- **Node state** (`CanvasNode.NodeState`). This class holds the component's
  `useState` fields and the handlers that change them. It also records the
  duplicate and delete requests the node sends to the canvas.
- **Header state** (`CanvasHeader.HeaderState`). This covers the title and
  the rename flow (Viewing, Editing, then commit or cancel), save routing and
  the settings menu. It includes the two effects, run as explicit methods.
  The Embed button scans the stored flow graph for a file parameter and for a
  `sessionId` parameter.

Outbound effects are appended to a `calls` / `flowCalls` sequence. These
include the parent's save and delete handlers, the rename request, the store
dispatch, the duplicate tab and the export download. The store's
`componentNodes`, `canvasDialogShow` and `isDirty` are inputs. `JSON.parse`
of the stored flow text becomes `Option<FlowGraph>`. Inside the graph, a
missing node list or a missing `data.inputParams` is also `None`, because
reading it throws.

Modules: `Wrappers` (Option), `Seqs` (JavaScript `find`/`filter`), `Decimal`
(how a number prints in a template literal), `FlowData` (parameter and graph
shapes), `CategoryStyle`, `VersionPolicy`, `CanvasNode`, `CanvasHeader`.

In these places the model follows the code as written:

- A `version` of `0` counts as missing, because the code tests `!data.version`.
- When no rule fires, the old warning is kept rather than cleared.
- The additional-parameters button can open an empty dialog
  (`OfferedButtonMayOpenEmptyDialog`).
- A malformed node met before any hit aborts an embed scan. The flag then
  stays false even if a later node would pass (`MalformedNodeHidesLaterHits`).

The `categoryColors` table is declared in the source but never read. The
border, shadow and header-background switches are each written as their own
table. `SelectedBorderIsCategoryColor`, `SelectedShadowIsCategoryColor` and
`HeaderSwitchIsCategoryColor` prove that all three agree with
`categoryColors`; for the shadow, each decimal `rgba` channel is the table's
hex digit pair.

## Model

| member | source | states |
|---|---|---|
| `Seqs.FindIndex` | packages/ui/src/views/canvas/CanvasNode.jsx:81 | the index found passes the test and every earlier element fails it; no index means no element passes |
| `Seqs.Find` | packages/ui/src/views/canvas/CanvasNode.jsx:81 | an element is found iff some element passes; it is the first passing element |
| `Seqs.Filter` | packages/ui/src/views/canvas/CanvasNode.jsx:72 | the result is no longer than the input and holds only input elements that pass |
| `Seqs.FilterIsSubsequence` | packages/ui/src/views/canvas/CanvasNode.jsx:72 | filtering keeps the original order (the result is a subsequence) |
| `Seqs.FilterCount` | packages/ui/src/views/canvas/CanvasNode.jsx:72 | every passing element keeps all its occurrences, every failing one keeps none |
| `Seqs.FilterFilter` | packages/ui/src/views/canvas/CanvasNode.jsx:72 | two chained filters equal one filter by the conjunction |
| `Decimal.NatToString` | packages/ui/src/views/canvas/CanvasNode.jsx:65-67 | the digits of a non-negative number carry no leading zero, and start with '0' only for zero |
| `Decimal.IntToString` | packages/ui/src/views/canvas/CanvasNode.jsx:65-67 | a printed version is non-empty, made of digits and a leading minus exactly for negatives, with no leading zero and no "-0" (the canonical form a template literal prints) |
| `Decimal.CanonicalNatIsPrinted` | packages/ui/src/views/canvas/CanvasNode.jsx:65-67 | any digit string without a leading zero is exactly the printed form of the number it reads as |
| `Decimal.CanonicalIntIsPrinted` | packages/ui/src/views/canvas/CanvasNode.jsx:65-67 | any canonical integer string is exactly the printed form of its value, so with the round trip the printed text is fully determined |
| `Decimal.ParseIntToString` | packages/ui/src/views/canvas/CanvasNode.jsx:65-67 | the printed version reads back as the same number |
| `Decimal.IntToStringInjective` | packages/ui/src/views/canvas/CanvasNode.jsx:65-67 | different versions print differently |
| `CategoryStyle.Color` | packages/ui/src/views/canvas/CanvasNode.jsx:24-41 | every `categoryColors` entry is a `#RRGGBB` colour |
| `CategoryStyle.Parse` | packages/ui/src/views/canvas/CanvasNode.jsx:101-135 | a case matches exactly when the string is one of the sixteen category names, and it names that category |
| `CategoryStyle.ParseName` | packages/ui/src/views/canvas/CanvasNode.jsx:101-133 | every category's own name selects that category's case |
| `CategoryStyle.SelectedBorderIsCategoryColor` | packages/ui/src/views/canvas/CanvasNode.jsx:100-133 | the selected-border switch uses the `categoryColors` colour of every category for both stops |
| `CategoryStyle.SelectedShadowIsCategoryColor` | packages/ui/src/views/canvas/CanvasNode.jsx:143-176 | the selected-shadow switch glows in each category's `categoryColors` colour, hex written as decimal channels |
| `CategoryStyle.BorderImage` | packages/ui/src/views/canvas/CanvasNode.jsx:99-138 | unselected or unknown category gives the four-stop default; selected known category gives its colour's solid gradient |
| `CategoryStyle.BoxShadow` | packages/ui/src/views/canvas/CanvasNode.jsx:142-181 | unselected or unknown category gives the double default shadow; selected known category glows in its colour |
| `CategoryStyle.HeaderSwitchIsCategoryColor` | packages/ui/src/views/canvas/CanvasNode.jsx:243-277 | the header-background switch names the `categoryColors` colour of every category |
| `CategoryStyle.HeaderBackground` | packages/ui/src/views/canvas/CanvasNode.jsx:242-278 | the header is the category's `categoryColors` entry, a `#RRGGBB` colour, and transparent exactly for an unknown category |
| `CategoryStyle.LabelColor` | packages/ui/src/views/canvas/CanvasNode.jsx:306-309 | the label is white or the dark Retrievers colour, and white exactly when the category is Cache, Retrievers or Utilities |
| `CategoryStyle.WhiteLabelExactlyOnDarkHeader` | packages/ui/src/views/canvas/CanvasNode.jsx:306-309 | the label is white (Cache, Retrievers, Utilities) exactly on the dark headers, and dark on every other header |
| `VersionPolicy.Evaluate` | packages/ui/src/views/canvas/CanvasNode.jsx:83-89 | the warning chosen applies and is the most severe applicable one (missing > outdated > deprecating); none means none applies |
| `VersionPolicy.ApplicableUnique` | packages/ui/src/views/canvas/CanvasNode.jsx:83-89 | at most one warning of each severity applies, so the choice is unique |
| `VersionPolicy.EvaluateExamples` | packages/ui/src/views/canvas/CanvasNode.jsx:83-89 | missing beats deprecating, zero counts as missing, older is outdated, a current version is reported only if deprecating |
| `VersionPolicy.Check` | packages/ui/src/views/canvas/CanvasNode.jsx:81-90 | no registry entry of that name gives no warning; otherwise the result is `Evaluate` on the first entry of that name, and a falsy version gets the missing-version warning with that entry's version |
| `VersionPolicy.Text` | packages/ui/src/views/canvas/CanvasNode.jsx:65-88 | every warning text is non-empty |
| `VersionPolicy.TextInjective` | packages/ui/src/views/canvas/CanvasNode.jsx:65-88 | different warnings, including different version numbers, never show the same text |
| `VersionPolicy.TextNamesLatestVersion` | packages/ui/src/views/canvas/CanvasNode.jsx:65-67 | a version warning ends with the registry version, which reads back exactly |
| `CanvasNode.RenderedParams` | packages/ui/src/views/canvas/CanvasNode.jsx:361-365 | only visible input parameters are rendered |
| `CanvasNode.RenderedParamsSpec` | packages/ui/src/views/canvas/CanvasNode.jsx:361-365 | rendered parameters keep their order and every visible parameter with its multiplicity |
| `CanvasNode.DialogParams` | packages/ui/src/views/canvas/CanvasNode.jsx:72 | the dialog holds only parameters that are visible and additional |
| `CanvasNode.DialogParamsSpec` | packages/ui/src/views/canvas/CanvasNode.jsx:69-78 | the dialog equals one filter by visible-and-additional, keeps order and multiplicity, and is empty iff no parameter qualifies |
| `CanvasNode.OffersAdditionalParams` | packages/ui/src/views/canvas/CanvasNode.jsx:366 | the button is offered iff some parameter is additional, hidden or not |
| `CanvasNode.OfferedButtonMayOpenEmptyDialog` | packages/ui/src/views/canvas/CanvasNode.jsx:366-377 | a non-empty dialog implies the button is offered; a hidden-only additional parameter offers the button with an empty dialog |
| `CanvasNode.NodeState.constructor` | packages/ui/src/views/canvas/CanvasNode.jsx:50-55 | all flags false, both payloads empty, warning empty and no icon, no requests |
| `CanvasNode.NodeState.TooltipOpen` | packages/ui/src/views/canvas/CanvasNode.jsx:187 | definition: the tooltip is open when `open` holds and no canvas dialog shows |
| `CanvasNode.NodeState.WarningIconShown` | packages/ui/src/views/canvas/CanvasNode.jsx:332 | definition: the warning icon renders when the warning text is non-empty |
| `CanvasNode.NodeState.HandleOpen` | packages/ui/src/views/canvas/CanvasNode.jsx:61-63 | the tooltip opens, and shows only while no canvas dialog is showing |
| `CanvasNode.NodeState.HandleClose` | packages/ui/src/views/canvas/CanvasNode.jsx:57-59 | the tooltip closes whatever the canvas dialog state |
| `CanvasNode.NodeState.OnDialogClicked` | packages/ui/src/views/canvas/CanvasNode.jsx:69-78 | opens the dialog with the node data, the dialog parameters and Save/Cancel labels, a payload that depends on the data alone |
| `CanvasNode.NodeState.OnDialogCancel` | packages/ui/src/views/canvas/CanvasNode.jsx:403 | closes the additional-parameters dialog |
| `CanvasNode.NodeState.OnDuplicateClick` | packages/ui/src/views/canvas/CanvasNode.jsx:201-203 | sends exactly one duplicate request carrying the node's id |
| `CanvasNode.NodeState.OnDeleteClick` | packages/ui/src/views/canvas/CanvasNode.jsx:211-213 | sends exactly one delete request carrying the node's id |
| `CanvasNode.NodeState.OnInfoClick` | packages/ui/src/views/canvas/CanvasNode.jsx:221-224 | opens the info dialog on the node's data |
| `CanvasNode.NodeState.OnInfoCancel` | packages/ui/src/views/canvas/CanvasNode.jsx:405 | closes the info dialog |
| `CanvasNode.NodeState.VersionEffect` | packages/ui/src/views/canvas/CanvasNode.jsx:80-91 | a firing rule overwrites the warning with its text and shows the icon; otherwise the previous warning is left as it was |
| `CanvasHeader.ScanNodes` | packages/ui/src/views/canvas/CanvasHeader.jsx:112-124 | the flag is true exactly when a node with a passing parameter is reached before any malformed node; a parse failure gives false |
| `CanvasHeader.ScanOnWellFormedGraph` | packages/ui/src/views/canvas/CanvasHeader.jsx:116-121 | on well-formed nodes the scan is true iff some parameter of some node passes |
| `CanvasHeader.MalformedNodeHidesLaterHits` | packages/ui/src/views/canvas/CanvasHeader.jsx:113-124 | a malformed node ahead of every passing node leaves the flag false |
| `CanvasHeader.SessionIdScenario` | packages/ui/src/views/canvas/CanvasHeader.jsx:126-140 | a single `sessionId` string parameter sets session memory and not form data |
| `CanvasHeader.ExportFileName` | packages/ui/src/views/canvas/CanvasHeader.jsx:84 | the file name is the flow name followed by " Chatflow.json" |
| `CanvasHeader.ExportFileNameInjective` | packages/ui/src/views/canvas/CanvasHeader.jsx:84 | different flow names export to different file names |
| `CanvasHeader.SettingsCalls` | packages/ui/src/views/canvas/CanvasHeader.jsx:57-93 | at most one request per item, never a save, load, rename or dispatch; delete sends `DeleteFlow`, duplicate sends the raw flow text, export of a flow whose graph has a node list downloads `ExportFileName` of the flow's name; nothing else sends anything |
| `CanvasHeader.HeaderState.constructor` | packages/ui/src/views/canvas/CanvasHeader.jsx:40-49 | not editing, empty name, every menu and dialog closed with empty props, no requests; the commit paths start consistent |
| `CanvasHeader.HeaderState.Title` | packages/ui/src/views/canvas/CanvasHeader.jsx:225 | the title starts with '*' iff the canvas is dirty and ends with the flow name |
| `CanvasHeader.HeaderState.CommitPathsExclusive` | packages/ui/src/views/canvas/CanvasHeader.jsx:151-154 | renaming for a persisted flow and the save-name dialog for a new one are never both active |
| `CanvasHeader.HeaderState.OnEditClick` | packages/ui/src/views/canvas/CanvasHeader.jsx:227-250 | offered only for a persisted flow while not editing; enters editing and keeps the commit paths exclusive |
| `CanvasHeader.HeaderState.OnCancelEditClick` | packages/ui/src/views/canvas/CanvasHeader.jsx:313 | leaves editing with the name unchanged and no request sent; keeps the commit paths consistent |
| `CanvasHeader.HeaderState.SubmitFlowName` | packages/ui/src/views/canvas/CanvasHeader.jsx:101-108 | a persisted flow gets one rename request with the typed draft; otherwise nothing is sent |
| `CanvasHeader.HeaderState.UpdateResponseEffect` | packages/ui/src/views/canvas/CanvasHeader.jsx:161-169 | a response sets the name to the returned name and stores the returned flow; editing ends in every case; keeps the commit paths consistent |
| `CanvasHeader.HeaderState.OnSaveChatflowClick` | packages/ui/src/views/canvas/CanvasHeader.jsx:151-154 | a persisted flow is saved under the current name with no dialog; a new flow opens the name dialog with no save; keeps the commit paths consistent |
| `CanvasHeader.HeaderState.OnConfirmSaveName` | packages/ui/src/views/canvas/CanvasHeader.jsx:156-159 | closes the dialog and saves under the confirmed name; keeps the commit paths consistent |
| `CanvasHeader.HeaderState.OnSaveDialogCancel` | packages/ui/src/views/canvas/CanvasHeader.jsx:416 | closes the save-name dialog; keeps the commit paths consistent |
| `CanvasHeader.HeaderState.OnSettingsButtonClick` | packages/ui/src/views/canvas/CanvasHeader.jsx:394 | toggles the settings menu |
| `CanvasHeader.HeaderState.OnSettingsClose` | packages/ui/src/views/canvas/CanvasHeader.jsx:405 | closes the settings menu |
| `CanvasHeader.HeaderState.OnSettingsItemClick` | packages/ui/src/views/canvas/CanvasHeader.jsx:54-94 | closes the menu; view-messages and configuration open their dialogs with title and flow; other dialogs unchanged; requests as `SettingsCalls` |
| `CanvasHeader.HeaderState.OnUploadFile` | packages/ui/src/views/canvas/CanvasHeader.jsx:96-99 | closes the menu and sends one load request with the file |
| `CanvasHeader.HeaderState.OnAPIDialogClick` | packages/ui/src/views/canvas/CanvasHeader.jsx:110-149 | opens the embed dialog with title, flow id, API key id and both scan flags, whatever the scans found |
| `CanvasHeader.HeaderState.OnAPIDialogCancel` | packages/ui/src/views/canvas/CanvasHeader.jsx:419 | closes the embed dialog |
| `CanvasHeader.HeaderState.OnViewMessagesCancel` | packages/ui/src/views/canvas/CanvasHeader.jsx:423 | closes the view-messages dialog |
| `CanvasHeader.HeaderState.OnConfigurationCancel` | packages/ui/src/views/canvas/CanvasHeader.jsx:429 | closes the configuration dialog |
| `CanvasHeader.HeaderState.ChatflowPropEffect` | packages/ui/src/views/canvas/CanvasHeader.jsx:171-182 | a chatflow prop resets the name to its name and refreshes the configuration props only while that dialog is open |

## Left out

- Markup, MUI theme and `sx` styling, icons and image URLs are not modelled. This includes the node-icon URL, the "Inputs" heading condition (CanvasNode.jsx:342), the margin of the additional-parameters button (CanvasNode.jsx:370-374) and the LlamaIndex badge (CanvasNode.jsx:316). All of these are presentation only.
- React scheduling is not modelled. Each `useEffect` is a method (`VersionEffect`, `UpdateResponseEffect`, `ChatflowPropEffect`) that the caller runs when the effect's inputs change.
- The Redux store and `flowContext` are inputs or recorded calls. `dispatch(SET_CHATFLOW)`, `duplicateNode` and `deleteNode` are appended to the call sequences. What the store then does is outside these views.
- Network calls are not modelled. Only the response that `useApi` hands to the effect is modelled, as an `Option`. A failed rename leaves `data` unchanged, so the effect does not run again and the model does not call it.
- Browser side effects are single recorded calls. Duplicating records `OpenDuplicate` with the raw flow text. A `localStorage` quota failure, which would skip `window.open`, is not modelled. Exporting records `DownloadExport` with the file name only. The Back button's `navigate` (CanvasHeader.jsx:208) is not modelled.
- `JSON.parse`, `JSON.stringify`, `encodeURIComponent` and `generateExportFlowData` are not modelled. The parse result is carried as `Option<FlowGraph>`. The exported file's contents are not modelled, because `generateExportFlowData` is not part of this model. `console.error` in the catch blocks is not modelled.
- Child dialogs and the `Settings` menu are foreign UI. Only the props and callbacks they receive are modelled.
- Overlapping rename or save requests are not modelled. The source does not order them.
- Versions are integers. Fractional or `NaN` versions, a registry entry without a version, and the exponent notation JavaScript uses for numbers of 10^21 and above are not modelled.
- Every handler takes a `chatflow` that is present. With an absent `chatflow`, `chatflow.id` would throw. Only the prop-sync effect, which tests `if (chatflow)`, takes an optional one.
- `isEditingFlowName` starts as `null` in the source and as `false` here. Both are falsy and every use is a truthiness test.
- SettingsCalls: `generateExportFlowData` is not part of this model. The model assumes it throws exactly when the parsed graph has no node list (as the embed scan does when it walks `nodes`) and otherwise succeeds, so an export of such a graph downloads nothing.
- A `null` entry inside `inputParams` is not modelled. It would make `find` throw.
