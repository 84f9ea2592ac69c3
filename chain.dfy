/**
 * The chain of responsibility demo: widgets pass an error to their successor until an
 * error-handling composite takes it. Composites also keep a list of child widgets; leaves
 * answer `addWidget`/`getWidgets` by sending a 'not implemented' error up the chain.
 */
module ChainOfResponsibility {
  import opened Wrappers

  /**
   * The prototypes a widget can be built from: `Widget`/`Leaf` (the base behaviour),
   * `Composite` (keeps children) and `ErrorHandlingComposite` (a composite that handles errors).
   */
  datatype Kind = LeafKind | CompositeKind | ErrorHandlingKind

  /** Where an error ends up: handled by the named widget, or a `TypeError` at a `null` successor. */
  datatype Handling = HandledBy(handler: string, message: string) | NullSuccessor

  /** The answer to `getWidgets`: a composite's list, or what became of a leaf's error. */
  datatype Reply = Widgets(widgets: seq<Widget>) | Forwarded(handling: Handling)

  class Widget {
    const name: string
    const successor: Widget?
    const kind: Kind
    var widgets: seq<Widget>
    /** The length of the successor chain above this widget; it makes the chain acyclic. */
    ghost const depth: nat

    /** The successor chain ends: every successor sits strictly lower in depth. */
    ghost predicate ChainOk()
      decreases depth
    {
      successor != null ==> successor.depth < depth && successor.ChainOk()
    }

    /** A widget's name, successor and kind are fixed here; composites start with no children. */
    constructor (name: string, successor: Widget?, kind: Kind)
      requires successor != null ==> successor.ChainOk()
      ensures ChainOk()
      ensures this.name == name && this.successor == successor && this.kind == kind
      ensures widgets == []
    {
      this.name := name;
      this.successor := successor;
      this.kind := kind;
      depth := if successor == null then 0 else successor.depth + 1;
      widgets := [];
    }

    /** This widget and its successors, nearest first. */
    ghost function Chain(): (ws: seq<Widget>)
      requires ChainOk()
      ensures |ws| >= 1 && ws[0] == this
      decreases depth
    {
      [this] + if successor == null then [] else successor.Chain()
    }

    /** `this.successor.handleError(error)`: fails when there is no successor. */
    function Forward(message: string): (h: Handling)
      requires ChainOk()
      decreases depth, 1
    {
      if successor == null then NullSuccessor else successor.HandleError(message)
    }

    /** `handleError`: an error-handling composite keeps the error; any other widget forwards it. */
    function HandleError(message: string): (h: Handling)
      requires ChainOk()
      ensures kind == ErrorHandlingKind ==> h == HandledBy(name, message)
      ensures kind != ErrorHandlingKind ==> h == Forward(message)
      decreases depth, 2
    {
      if kind == ErrorHandlingKind then HandledBy(name, message) else Forward(message)
    }

    /**
     * `addWidget`: a composite appends the widget; a leaf leaves its children alone and sends
     * `'addWidget is not implemented'` to its successor.
     */
    method AddWidget(w: Widget) returns (r: Option<Handling>)
      requires ChainOk()
      modifies this`widgets
      ensures kind != LeafKind ==> r == None && widgets == old(widgets) + [w]
      ensures kind == LeafKind ==> r == Some(Forward("addWidget is not implemented")) && widgets == old(widgets)
    {
      if kind == LeafKind {
        return Some(Forward("addWidget is not implemented"));
      }
      widgets := widgets + [w];
      r := None;
    }

    /** `getWidgets`: a composite's children in insertion order; a leaf sends `'getWidgets is not implemented'` on. */
    function GetWidgets(): (r: Reply)
      reads this
      requires ChainOk()
      ensures kind != LeafKind <==> r.Widgets?
      ensures r.Widgets? ==> r.widgets == widgets
      ensures r.Forwarded? ==> r.handling == Forward("getWidgets is not implemented")
    {
      if kind == LeafKind then Forwarded(Forward("getWidgets is not implemented")) else Widgets(widgets)
    }
  }

  /** The first index in `ws` holding an error-handling widget, if there is one. */
  function FirstHandler(ws: seq<Widget>): (i: Option<nat>)
    ensures i.Some? ==> i.value < |ws| && ws[i.value].kind == ErrorHandlingKind
    ensures i.Some? ==> forall j | 0 <= j < i.value :: ws[j].kind != ErrorHandlingKind
    ensures i.None? ==> forall j | 0 <= j < |ws| :: ws[j].kind != ErrorHandlingKind
  {
    if ws == [] then None
    else if ws[0].kind == ErrorHandlingKind then Some(0)
    else match FirstHandler(ws[1..])
      case None => None
      case Some(k) => Some(k + 1)
  }

  /**
   * An error is handled by the first error-handling widget along the chain, starting at the
   * widget itself, with its message unchanged; with no such widget it fails at the end of
   * the chain.
   */
  lemma {:induction false} HandledByFirstHandler(w: Widget, message: string)
    requires w.ChainOk()
    ensures FirstHandler(w.Chain()).None? ==> w.HandleError(message) == NullSuccessor
    ensures FirstHandler(w.Chain()).Some? ==>
      w.HandleError(message) == HandledBy(w.Chain()[FirstHandler(w.Chain()).value].name, message)
    decreases w.depth
  {
    var ws := w.Chain();
    if w.kind != ErrorHandlingKind && w.successor != null {
      HandledByFirstHandler(w.successor, message);
      assert ws[1..] == w.successor.Chain();
    }
  }

  /**
   * The demo: a `'root'` error-handling composite over a plain composite and an error-handling
   * one, each with a leaf. `firstLeaf.getWidgets()` climbs through the plain composite and is
   * handled in `'root'`; `secondMainDiv.successor` is `root`.
   */
  method ChainUsage() returns (fromFirstLeaf: Reply, fromSecondLeaf: Reply, secondSuccessor: Widget?, root: Widget)
    ensures fromFirstLeaf == Forwarded(HandledBy("root", "getWidgets is not implemented"))
    ensures fromSecondLeaf == Forwarded(HandledBy("error handling div", "getWidgets is not implemented"))
    ensures secondSuccessor == root && root.name == "root"
  {
    root := new Widget("root", null, ErrorHandlingKind);
    var firstMainDiv := new Widget("non-error handling div", root, CompositeKind);
    var secondMainDiv := new Widget("error handling div", root, ErrorHandlingKind);
    var r := root.AddWidget(firstMainDiv);
    r := root.AddWidget(secondMainDiv);

    var firstLeaf := new Widget("leaf", firstMainDiv, LeafKind);
    r := firstMainDiv.AddWidget(firstLeaf);
    var secondLeaf := new Widget("leaf", secondMainDiv, LeafKind);
    r := secondMainDiv.AddWidget(secondLeaf);
    fromFirstLeaf := firstLeaf.GetWidgets();
    fromSecondLeaf := secondLeaf.GetWidgets();
    secondSuccessor := secondMainDiv.successor;
  }
}
