/** The toolbar above the flow canvas: the flow's title and its rename
    flow, save routing, the settings menu, and the embed dialog's two
    capability flags, scanned from the stored flow graph. */
module CanvasHeader {
  import opened Wrappers
  import opened Seqs
  import opened FlowData

  /** The stored text of a flow and what `JSON.parse` makes of it
      (None when parsing throws). */
  datatype FlowDataText = FlowDataText(raw: string, parsed: Option<FlowGraph>)

  /** The `chatflow` prop. */
  datatype Chatflow = Chatflow(id: Option<string>, name: string, apikeyid: Option<string>, flowData: FlowDataText)

  /** JavaScript truthiness of `chatflow.id`: present and not empty. */
  predicate HasId(chatflow: Chatflow) {
    chatflow.id.Some? && chatflow.id.value != ""
  }

  predicate IsFileParam(p: InputParam) {
    p.paramType == "file"
  }

  predicate IsSessionIdParam(p: InputParam) {
    p.name == "sessionId"
  }

  /** The node is well formed and one of its parameters passes the test. */
  predicate NodeHit(node: FlowNode, isHit: InputParam -> bool) {
    node.inputParams.Some? && Find(node.inputParams.value, isHit).Some?
  }

  /** What one embed scan reports: the graph parsed, its node list exists,
      and some node has a passing parameter with no malformed node before
      it. A malformed node met first throws inside the `try`, which leaves
      the flag false. */
  predicate HitBeforeFailure(graph: Option<FlowGraph>, isHit: InputParam -> bool) {
    graph.Some? && graph.value.nodes.Some? &&
    var nodes := graph.value.nodes.value;
    exists k :: 0 <= k < |nodes| && NodeHit(nodes[k], isHit) &&
      forall j :: 0 <= j < k ==> nodes[j].inputParams.Some?
  }

  /** One capability scan of `onAPIDialogClick`: walk the nodes, stop at the
      first node with a passing parameter. */
  method ScanNodes(graph: Option<FlowGraph>, isHit: InputParam -> bool) returns (found: bool)
    ensures found == HitBeforeFailure(graph, isHit)
  {
    found := false;
    if graph.None? || graph.value.nodes.None? {
      return;
    }
    var nodes := graph.value.nodes.value;
    var i := 0;
    while i < |nodes|
      invariant 0 <= i <= |nodes|
      invariant !found
      invariant forall j :: 0 <= j < i ==> nodes[j].inputParams.Some? && !NodeHit(nodes[j], isHit)
    {
      if nodes[i].inputParams.None? {
        return;
      }
      if Find(nodes[i].inputParams.value, isHit).Some? {
        found := true;
        break;
      }
      i := i + 1;
    }
  }

  /** On a graph whose every node is well formed, the scan reports exactly
      whether any parameter of any node passes the test. */
  lemma ScanOnWellFormedGraph(nodes: seq<FlowNode>, isHit: InputParam -> bool)
    requires forall k :: 0 <= k < |nodes| ==> nodes[k].inputParams.Some?
    ensures HitBeforeFailure(Some(FlowGraph(Some(nodes))), isHit) <==>
      exists k, i :: 0 <= k < |nodes| && 0 <= i < |nodes[k].inputParams.value| && isHit(nodes[k].inputParams.value[i])
  {
    if exists k, i :: 0 <= k < |nodes| && 0 <= i < |nodes[k].inputParams.value| && isHit(nodes[k].inputParams.value[i]) {
      var k, i :| 0 <= k < |nodes| && 0 <= i < |nodes[k].inputParams.value| && isHit(nodes[k].inputParams.value[i]);
      assert NodeHit(nodes[k], isHit);
    }
  }

  /** A malformed node ahead of every passing node aborts the scan: the flag
      stays false even though a later node would pass. */
  lemma MalformedNodeHidesLaterHits(nodes: seq<FlowNode>, m: nat, isHit: InputParam -> bool)
    requires m < |nodes| && nodes[m].inputParams.None?
    requires forall k :: 0 <= k < m ==> !NodeHit(nodes[k], isHit)
    ensures !HitBeforeFailure(Some(FlowGraph(Some(nodes))), isHit)
  {
  }

  /** A flow whose one node takes a `sessionId` string parameter uses
      session memory and does not need form data. */
  lemma SessionIdScenario()
    ensures var graph := Some(FlowGraph(Some([FlowNode(Some([InputParam("sessionId", "string", false, false)]))])));
      HitBeforeFailure(graph, IsSessionIdParam) && !HitBeforeFailure(graph, IsFileParam)
  {
    var p := InputParam("sessionId", "string", false, false);
    var nodes := [FlowNode(Some([p]))];
    assert IsSessionIdParam(nodes[0].inputParams.value[0]);
    assert NodeHit(nodes[0], IsSessionIdParam);
  }

  /** The name of the exported file. */
  function ExportFileName(name: string): (r: string)
    ensures |r| == |name| + 14
    ensures r[..|name|] == name && r[|name|..] == " Chatflow.json"
  {
    name + " Chatflow.json"
  }

  /** Flows with different names export to different file names. */
  lemma ExportFileNameInjective(a: string, b: string)
    requires ExportFileName(a) == ExportFileName(b)
    ensures a == b
  {
    assert |a| == |b|;
    assert a == ExportFileName(a)[..|a|];
  }

  /** A request the header sends out: to its parent (`handleSaveFlow`,
      `handleDeleteFlow`, `handleLoadFlow`), to the flows API, to the store,
      or to the browser (a duplicate opened in a new tab, a file download). */
  datatype HeaderCall =
    | SaveFlow(name: string)
    | DeleteFlow
    | LoadFlow(file: string)
    | UpdateChatflow(id: string, name: string)
    | SetChatflow(chatflow: Chatflow)
    | OpenDuplicate(flowData: string)
    | DownloadExport(fileName: string)

  datatype ChatflowDialogProps = NoChatflowProps | ChatflowDialogProps(title: string, chatflow: Chatflow)

  datatype ApiDialogProps =
    | NoApiProps
    | ApiDialogProps(
        title: string,
        chatflowid: Option<string>,
        chatflowApiKeyId: Option<string>,
        isFormDataRequired: bool,
        isSessionMemory: bool)

  /** The stored flow text parses to a graph that has a node list, so the
      export conversion can walk it; otherwise the conversion throws inside
      the `try` and nothing is downloaded. */
  predicate Exportable(flowData: FlowDataText) {
    flowData.parsed.Some? && flowData.parsed.value.nodes.Some?
  }

  /** The requests one settings item sends. Deleting goes to the parent,
      duplicating hands the raw flow text to a new tab, and exporting
      downloads a file named after the flow when the flow is exportable. */
  function SettingsCalls(setting: string, chatflow: Chatflow): (r: seq<HeaderCall>)
    ensures |r| <= 1
    ensures r != [] <==>
      setting == "deleteChatflow" || setting == "duplicateChatflow" ||
      (setting == "exportChatflow" && Exportable(chatflow.flowData))
    ensures setting == "deleteChatflow" ==> r == [DeleteFlow]
    ensures setting == "duplicateChatflow" ==> r == [OpenDuplicate(chatflow.flowData.raw)]
    ensures setting == "exportChatflow" && Exportable(chatflow.flowData) ==>
      r == [DownloadExport(ExportFileName(chatflow.name))]
    ensures forall k :: 0 <= k < |r| ==> !r[k].SaveFlow? && !r[k].LoadFlow? && !r[k].UpdateChatflow? && !r[k].SetChatflow?
  {
    if setting == "deleteChatflow" then [DeleteFlow]
    else if setting == "duplicateChatflow" then [OpenDuplicate(chatflow.flowData.raw)]
    else if setting == "exportChatflow" && Exportable(chatflow.flowData) then
      [DownloadExport(ExportFileName(chatflow.name))]
    else []
  }

  /** The header component's own state (its `useState` fields) and the
      requests it has sent so far. */
  class HeaderState {
    var isEditingFlowName: bool
    var flowName: string
    var isSettingsOpen: bool
    var flowDialogOpen: bool
    var apiDialogOpen: bool
    var apiDialogProps: ApiDialogProps
    var viewMessagesDialogOpen: bool
    var viewMessagesDialogProps: ChatflowDialogProps
    var chatflowConfigurationDialogOpen: bool
    var chatflowConfigurationDialogProps: ChatflowDialogProps
    var calls: seq<HeaderCall>

    constructor ()
      ensures !isEditingFlowName && flowName == "" && !isSettingsOpen && !flowDialogOpen
      ensures !apiDialogOpen && apiDialogProps == NoApiProps
      ensures !viewMessagesDialogOpen && viewMessagesDialogProps == NoChatflowProps
      ensures !chatflowConfigurationDialogOpen && chatflowConfigurationDialogProps == NoChatflowProps
      ensures calls == []
      ensures forall cf :: CommitPathsConsistent(cf)
    {
      isEditingFlowName, flowName := false, "";
      isSettingsOpen, flowDialogOpen := false, false;
      apiDialogOpen, apiDialogProps := false, NoApiProps;
      viewMessagesDialogOpen, viewMessagesDialogProps := false, NoChatflowProps;
      chatflowConfigurationDialogOpen, chatflowConfigurationDialogProps := false, NoChatflowProps;
      calls := [];
    }

    /** The title line: a star when the canvas has unsaved changes, then the name. */
    function Title(isDirty: bool): (t: string)
      reads this
      ensures |t| > 0 && (t[0] == '*' <==> isDirty)
      ensures |flowName| <= |t| && t[|t| - |flowName|..] == flowName
    {
      (if isDirty then "*" else "") + " " + flowName
    }

    /** The Edit button is shown while not editing and the flow is persisted. */
    predicate EditOffered(chatflow: Chatflow)
      reads this
    {
      !isEditingFlowName && HasId(chatflow)
    }

    /** The two ways of committing a name never compete: renaming only for a
        persisted flow, the save-name dialog only for a new one. */
    predicate CommitPathsConsistent(chatflow: Chatflow)
      reads this
    {
      (isEditingFlowName ==> HasId(chatflow)) && (flowDialogOpen ==> !HasId(chatflow))
    }

    lemma CommitPathsExclusive(chatflow: Chatflow)
      requires CommitPathsConsistent(chatflow)
      ensures !(isEditingFlowName && flowDialogOpen)
    {
    }

    method OnEditClick(chatflow: Chatflow)
      requires EditOffered(chatflow)
      modifies this`isEditingFlowName
      ensures isEditingFlowName
      ensures old(CommitPathsConsistent(chatflow)) ==> CommitPathsConsistent(chatflow)
    {
      isEditingFlowName := true;
    }

    /** The Cancel button: leave editing with the name and requests untouched. */
    method OnCancelEditClick()
      modifies this`isEditingFlowName
      ensures forall cf :: old(CommitPathsConsistent(cf)) ==> CommitPathsConsistent(cf)
      ensures !isEditingFlowName
      ensures flowName == old(flowName) && calls == old(calls)
    {
      isEditingFlowName := false;
    }

    /** The Save Name button: request a rename to the typed draft, only for a
        persisted flow. */
    method SubmitFlowName(chatflow: Chatflow, draft: string)
      modifies this`calls
      ensures HasId(chatflow) ==> calls == old(calls) + [UpdateChatflow(chatflow.id.value, draft)]
      ensures !HasId(chatflow) ==> calls == old(calls)
    {
      if chatflow.id.Some? && chatflow.id.value != "" {
        calls := calls + [UpdateChatflow(chatflow.id.value, draft)];
      }
    }

    /** The update-response effect: the returned flow, not the draft, names
        the title, and editing ends whether or not a response arrived. */
    method UpdateResponseEffect(data: Option<Chatflow>)
      modifies this`flowName, this`calls, this`isEditingFlowName
      ensures forall cf :: old(CommitPathsConsistent(cf)) ==> CommitPathsConsistent(cf)
      ensures !isEditingFlowName
      ensures data.Some? ==> flowName == data.value.name && calls == old(calls) + [SetChatflow(data.value)]
      ensures data.None? ==> flowName == old(flowName) && calls == old(calls)
    {
      if data.Some? {
        flowName := data.value.name;
        calls := calls + [SetChatflow(data.value)];
      }
      isEditingFlowName := false;
    }

    /** The Save button: save a persisted flow under the current name, ask
        for a name otherwise. */
    method OnSaveChatflowClick(chatflow: Chatflow)
      modifies this`calls, this`flowDialogOpen
      ensures HasId(chatflow) ==> calls == old(calls) + [SaveFlow(flowName)] && flowDialogOpen == old(flowDialogOpen)
      ensures !HasId(chatflow) ==> calls == old(calls) && flowDialogOpen
      ensures old(CommitPathsConsistent(chatflow)) ==> CommitPathsConsistent(chatflow)
    {
      if chatflow.id.Some? && chatflow.id.value != "" {
        calls := calls + [SaveFlow(flowName)];
      } else {
        flowDialogOpen := true;
      }
    }

    /** The save-name dialog's confirmation: close it and save under the
        confirmed name. */
    method OnConfirmSaveName(name: string)
      modifies this`flowDialogOpen, this`calls
      ensures forall cf :: old(CommitPathsConsistent(cf)) ==> CommitPathsConsistent(cf)
      ensures !flowDialogOpen && calls == old(calls) + [SaveFlow(name)]
    {
      flowDialogOpen := false;
      calls := calls + [SaveFlow(name)];
    }

    method OnSaveDialogCancel()
      modifies this`flowDialogOpen
      ensures forall cf :: old(CommitPathsConsistent(cf)) ==> CommitPathsConsistent(cf)
      ensures !flowDialogOpen
    {
      flowDialogOpen := false;
    }

    method OnSettingsButtonClick()
      modifies this`isSettingsOpen
      ensures isSettingsOpen == !old(isSettingsOpen)
    {
      isSettingsOpen := !isSettingsOpen;
    }

    method OnSettingsClose()
      modifies this`isSettingsOpen
      ensures !isSettingsOpen
    {
      isSettingsOpen := false;
    }

    /** A settings-menu item: close the menu, then act on the item; an
        unknown item does nothing more. */
    method OnSettingsItemClick(setting: string, chatflow: Chatflow)
      modifies this`isSettingsOpen, this`calls
      modifies this`viewMessagesDialogOpen, this`viewMessagesDialogProps
      modifies this`chatflowConfigurationDialogOpen, this`chatflowConfigurationDialogProps
      ensures !isSettingsOpen
      ensures calls == old(calls) + SettingsCalls(setting, chatflow)
      ensures setting == "viewMessages" ==>
        viewMessagesDialogOpen && viewMessagesDialogProps == ChatflowDialogProps("View Messages", chatflow)
      ensures setting != "viewMessages" ==>
        viewMessagesDialogOpen == old(viewMessagesDialogOpen) && viewMessagesDialogProps == old(viewMessagesDialogProps)
      ensures setting == "chatflowConfiguration" ==>
        chatflowConfigurationDialogOpen &&
        chatflowConfigurationDialogProps == ChatflowDialogProps("Chatflow Configuration", chatflow)
      ensures setting != "chatflowConfiguration" ==>
        chatflowConfigurationDialogOpen == old(chatflowConfigurationDialogOpen) &&
        chatflowConfigurationDialogProps == old(chatflowConfigurationDialogProps)
    {
      isSettingsOpen := false;
      if setting == "deleteChatflow" {
        calls := calls + [DeleteFlow];
      } else if setting == "viewMessages" {
        viewMessagesDialogProps := ChatflowDialogProps("View Messages", chatflow);
        viewMessagesDialogOpen := true;
      } else if setting == "chatflowConfiguration" {
        chatflowConfigurationDialogProps := ChatflowDialogProps("Chatflow Configuration", chatflow);
        chatflowConfigurationDialogOpen := true;
      } else if setting == "duplicateChatflow" {
        calls := calls + [OpenDuplicate(chatflow.flowData.raw)];
      } else if setting == "exportChatflow" {
        if Exportable(chatflow.flowData) {
          calls := calls + [DownloadExport(ExportFileName(chatflow.name))];
        }
      }
    }

    /** A flow file chosen in the settings menu: close the menu and load it. */
    method OnUploadFile(file: string)
      modifies this`isSettingsOpen, this`calls
      ensures !isSettingsOpen && calls == old(calls) + [LoadFlow(file)]
    {
      isSettingsOpen := false;
      calls := calls + [LoadFlow(file)];
    }

    /** The Embed button: scan the stored graph twice, once for a file
        parameter and once for a `sessionId` parameter, then open the
        embed dialog whatever the scans found. */
    method OnAPIDialogClick(chatflow: Chatflow)
      modifies this`apiDialogProps, this`apiDialogOpen
      ensures apiDialogOpen
      ensures apiDialogProps == ApiDialogProps(
        "Embed in website or use as API", chatflow.id, chatflow.apikeyid,
        HitBeforeFailure(chatflow.flowData.parsed, IsFileParam),
        HitBeforeFailure(chatflow.flowData.parsed, IsSessionIdParam))
    {
      var isFormDataRequired := ScanNodes(chatflow.flowData.parsed, IsFileParam);
      var isSessionMemory := ScanNodes(chatflow.flowData.parsed, IsSessionIdParam);
      apiDialogProps := ApiDialogProps(
        "Embed in website or use as API", chatflow.id, chatflow.apikeyid, isFormDataRequired, isSessionMemory);
      apiDialogOpen := true;
    }

    method OnAPIDialogCancel()
      modifies this`apiDialogOpen
      ensures !apiDialogOpen
    {
      apiDialogOpen := false;
    }

    method OnViewMessagesCancel()
      modifies this`viewMessagesDialogOpen
      ensures !viewMessagesDialogOpen
    {
      viewMessagesDialogOpen := false;
    }

    method OnConfigurationCancel()
      modifies this`chatflowConfigurationDialogOpen
      ensures !chatflowConfigurationDialogOpen
    {
      chatflowConfigurationDialogOpen := false;
    }

    /** The prop-sync effect: a chatflow prop resets the title to its name
        and refreshes the configuration dialog only while that is open. */
    method ChatflowPropEffect(chatflow: Option<Chatflow>)
      modifies this`flowName, this`chatflowConfigurationDialogProps
      ensures chatflow.Some? ==> flowName == chatflow.value.name
      ensures chatflow.None? ==> flowName == old(flowName)
      ensures chatflowConfigurationDialogProps ==
        if chatflow.Some? && chatflowConfigurationDialogOpen
        then ChatflowDialogProps("Chatflow Configuration", chatflow.value)
        else old(chatflowConfigurationDialogProps)
    {
      if chatflow.Some? {
        flowName := chatflow.value.name;
        if chatflowConfigurationDialogOpen {
          chatflowConfigurationDialogProps := ChatflowDialogProps("Chatflow Configuration", chatflow.value);
        }
      }
    }
  }
}
