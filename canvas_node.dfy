/** One node on the flow canvas: which of its parameters it renders and
    offers in the additional-parameters dialog, its local tooltip and dialog
    state, the outbound duplicate/delete requests, and the version warning. */
module CanvasNode {
  import opened Wrappers
  import opened Seqs
  import opened FlowData
  import VersionPolicy

  /** The node's `data` prop. `version` is None when the field is absent. */
  datatype NodeData = NodeData(
    id: string,
    name: string,
    version: Option<int>,
    category: string,
    labelText: string,
    selected: bool,
    inputParams: seq<InputParam>)

  predicate NotHidden(p: InputParam) {
    !p.hidden
  }

  predicate IsAdditional(p: InputParam) {
    p.additionalParams
  }

  /** A parameter that belongs in the additional-parameters dialog. */
  predicate InDialog(p: InputParam) {
    !p.hidden && p.additionalParams
  }

  /** The parameters rendered as inputs on the node itself. */
  function RenderedParams(params: seq<InputParam>): (r: seq<InputParam>)
    ensures forall p :: p in r ==> p in params && !p.hidden
  {
    Filter(params, NotHidden)
  }

  /** The rendered parameters keep their order and every visible parameter,
      each as often as it occurs. */
  lemma RenderedParamsSpec(params: seq<InputParam>)
    ensures IsSubsequence(RenderedParams(params), params)
    ensures forall p :: multiset(RenderedParams(params))[p] == if p.hidden then 0 else multiset(params)[p]
  {
    FilterIsSubsequence(params, NotHidden);
    forall p ensures multiset(RenderedParams(params))[p] == if p.hidden then 0 else multiset(params)[p] {
      FilterCount(params, NotHidden, p);
    }
  }

  /** The `inputParams` of the additional-parameters dialog: the visible
      parameters, then of those the additional ones. */
  function DialogParams(params: seq<InputParam>): (r: seq<InputParam>)
    ensures forall p :: p in r ==> p in params && InDialog(p)
  {
    Filter(Filter(params, NotHidden), IsAdditional)
  }

  /** The dialog holds exactly the visible additional parameters, in their
      original order, each as often as it occurs; it is empty exactly when
      no parameter is both visible and additional. */
  lemma DialogParamsSpec(params: seq<InputParam>)
    ensures DialogParams(params) == Filter(params, InDialog)
    ensures IsSubsequence(DialogParams(params), params)
    ensures forall p :: multiset(DialogParams(params))[p] == if InDialog(p) then multiset(params)[p] else 0
    ensures DialogParams(params) == [] <==> forall i :: 0 <= i < |params| ==> !InDialog(params[i])
  {
    FilterFilter(params, NotHidden, IsAdditional, InDialog);
    FilterIsSubsequence(params, InDialog);
    forall p ensures multiset(DialogParams(params))[p] == if InDialog(p) then multiset(params)[p] else 0 {
      FilterCount(params, InDialog, p);
    }
    if DialogParams(params) == [] {
      forall i | 0 <= i < |params| ensures !InDialog(params[i]) {
        assert params[i] in multiset(params);
      }
    } else {
      var p := DialogParams(params)[0];
      assert p in DialogParams(params);
    }
  }

  /** Whether the "Additional Parameters" button is shown: some parameter is
      additional, hidden or not. */
  function OffersAdditionalParams(params: seq<InputParam>): (r: bool)
    ensures r <==> exists i :: 0 <= i < |params| && params[i].additionalParams
  {
    Find(params, IsAdditional).Some?
  }

  /** The button is offered whenever the dialog would have something in it,
      but a node whose additional parameters are all hidden offers the
      button and opens an empty dialog. */
  lemma OfferedButtonMayOpenEmptyDialog(params: seq<InputParam>)
    ensures DialogParams(params) != [] ==> OffersAdditionalParams(params)
    ensures var hiddenOnly := [InputParam("topK", "number", true, true)];
      OffersAdditionalParams(hiddenOnly) && DialogParams(hiddenOnly) == []
  {
    DialogParamsSpec(params);
    if DialogParams(params) != [] {
      var i :| 0 <= i < |params| && InDialog(params[i]);
      assert params[i].additionalParams;
    }
  }

  /** A request the node sends to the canvas (`flowContext`). */
  datatype FlowCall = DuplicateNode(id: string) | DeleteNode(id: string)

  datatype ParamsDialogProps =
    | NoParamsProps
    | ParamsDialogProps(data: NodeData, inputParams: seq<InputParam>, confirmButtonName: string, cancelButtonName: string)

  datatype InfoDialogProps = NoInfoProps | InfoDialogProps(data: NodeData)

  /** The node component's own state (its `useState` fields) and the
      requests it has sent to the canvas so far. */
  class NodeState {
    var showDialog: bool
    var dialogProps: ParamsDialogProps
    var showInfoDialog: bool
    var infoDialogProps: InfoDialogProps
    var warningMessage: string
    var open: bool
    var flowCalls: seq<FlowCall>

    constructor ()
      ensures !showDialog && dialogProps == NoParamsProps
      ensures !showInfoDialog && infoDialogProps == NoInfoProps
      ensures warningMessage == "" && !WarningIconShown()
      ensures !open && flowCalls == []
    {
      showDialog, dialogProps := false, NoParamsProps;
      showInfoDialog, infoDialogProps := false, NoInfoProps;
      warningMessage := "";
      open := false;
      flowCalls := [];
    }

    /** The action tooltip shows only while it is open and no canvas-level
        dialog is showing. */
    predicate TooltipOpen(canvasDialogShow: bool)
      reads this
    {
      !canvasDialogShow && open
    }

    /** The warning icon is rendered exactly when there is warning text. */
    predicate WarningIconShown()
      reads this
    {
      warningMessage != ""
    }

    method HandleOpen()
      modifies this`open
      ensures open
      ensures TooltipOpen(false) && !TooltipOpen(true)
    {
      open := true;
    }

    method HandleClose()
      modifies this`open
      ensures !open
      ensures !TooltipOpen(false) && !TooltipOpen(true)
    {
      open := false;
    }

    /** The "Additional Parameters" button. The payload depends on `data`
        alone, so clicking again on the same data gives the same payload. */
    method OnDialogClicked(data: NodeData)
      modifies this`dialogProps, this`showDialog
      ensures showDialog
      ensures dialogProps == ParamsDialogProps(data, DialogParams(data.inputParams), "Save", "Cancel")
    {
      dialogProps := ParamsDialogProps(data, DialogParams(data.inputParams), "Save", "Cancel");
      showDialog := true;
    }

    method OnDialogCancel()
      modifies this`showDialog
      ensures !showDialog
    {
      showDialog := false;
    }

    /** The tooltip's Duplicate button forwards exactly the node's id. */
    method OnDuplicateClick(data: NodeData)
      modifies this`flowCalls
      ensures flowCalls == old(flowCalls) + [DuplicateNode(data.id)]
    {
      flowCalls := flowCalls + [DuplicateNode(data.id)];
    }

    /** The tooltip's Delete button forwards exactly the node's id. */
    method OnDeleteClick(data: NodeData)
      modifies this`flowCalls
      ensures flowCalls == old(flowCalls) + [DeleteNode(data.id)]
    {
      flowCalls := flowCalls + [DeleteNode(data.id)];
    }

    /** The tooltip's Info button opens the info dialog on the node's data. */
    method OnInfoClick(data: NodeData)
      modifies this`infoDialogProps, this`showInfoDialog
      ensures showInfoDialog && infoDialogProps == InfoDialogProps(data)
    {
      infoDialogProps := InfoDialogProps(data);
      showInfoDialog := true;
    }

    method OnInfoCancel()
      modifies this`showInfoDialog
      ensures !showInfoDialog
    {
      showInfoDialog := false;
    }

    /** The version effect: look the node up in the registry and, when a rule
        fires, overwrite the warning; otherwise leave the previous warning,
        whatever it was, in place. */
    method VersionEffect(componentNodes: seq<VersionPolicy.ComponentNode>, data: NodeData)
      modifies this`warningMessage
      ensures match VersionPolicy.Check(componentNodes, data.name, data.version)
        case Some(w) => warningMessage == VersionPolicy.Text(w) && WarningIconShown()
        case None => warningMessage == old(warningMessage)
    {
      var componentNode := Find(componentNodes, (nd: VersionPolicy.ComponentNode) => nd.name == data.name);
      if componentNode.Some? {
        var entry := componentNode.value;
        if VersionPolicy.Falsy(data.version) {
          warningMessage := VersionPolicy.Text(VersionPolicy.VersionMissing(entry.version));
        } else if entry.version > data.version.value {
          warningMessage := VersionPolicy.Text(VersionPolicy.Outdated(data.version.value, entry.version));
        } else if entry.badge == Some("DEPRECATING") {
          warningMessage := VersionPolicy.Text(VersionPolicy.Deprecating);
        }
      }
    }
  }
}
