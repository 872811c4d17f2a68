/**
 * The event vocabulary shared by all editors (src/events/Events.ts): an event has a source,
 * a name and a payload. Events of source `Modeler` carry one of five fixed names; events of
 * source `BpmnIo` carry any engine event name and the engine's raw payload.
 */
module Events {
  import opened Wrappers

  /** "modeler" or "bpmnio". */
  datatype Source = Modeler | BpmnIo

  /** The five modeler event names. */
  const ContentSavedName: string := "content.saved"
  const UIUpdateRequiredName: string := "ui.update.required"
  const NotificationName: string := "notification"
  const PropertiesPanelResizedName: string := "properties.panel.resized"
  const DmnViewsChangedName: string := "dmn.views.changed"

  const ModelerEventNames: seq<string> :=
    [ContentSavedName, UIUpdateRequiredName, NotificationName, PropertiesPanelResizedName, DmnViewsChangedName]

  /** Why the content was saved. */
  datatype ContentSavedReason = DiagramChanged | XmlChanged | ViewChanged

  /** The string a host sees for a reason. */
  function ReasonName(reason: ContentSavedReason): (s: string)
    ensures s in {"diagram.changed", "xml.changed", "view.changed"}
  {
    match reason
    case DiagramChanged => "diagram.changed"
    case XmlChanged => "xml.changed"
    case ViewChanged => "view.changed"
  }

  datatype NotificationSeverity = Success | Info | Warning | Error

  /** The string a host sees for a severity. */
  function SeverityName(severity: NotificationSeverity): (s: string)
    ensures s in {"success", "info", "warning", "error"}
  {
    match severity
    case Success => "success"
    case Info => "info"
    case Warning => "warning"
    case Error => "error"
  }

  /** The kinds of DMN views (the `type` of a dmn-js view). */
  datatype ViewType = Drd | DecisionTable | LiteralExpression

  /** A view of the DMN engine; its `element` (an engine object) is not modelled. */
  datatype DmnView = DmnView(id: string, name: string, viewType: ViewType)

  /**
   * The raw payload of an engine event: `undefined`, the record that dmn-js sends with
   * "views.changed", or any other object, known only by an opaque tag.
   */
  datatype Payload =
    | Undefined
    | ViewsPayload(views: seq<DmnView>, activeView: Option<DmnView>)
    | Opaque(tag: nat)

  /** The data of an event, one variant per kind. */
  datatype EventData =
    | ContentSavedData(xml: string, svg: Option<string>, reason: ContentSavedReason)
    | NotificationData(message: string, severity: NotificationSeverity)
    | DmnViewsChangedData(views: seq<DmnView>, activeView: Option<DmnView>)
    | UIUpdateRequiredData(isActive: bool)
    | PropertiesPanelResizedData(width: int)
    | RawData(payload: Payload)

  datatype Event = Event(source: Source, name: string, data: EventData)

  /**
   * An event as the type `Event<Data, Source>` allows it: a modeler event carries one of the
   * five names and the data of that kind; a bpmnio event carries raw engine data.
   */
  predicate WellFormed(e: Event) {
    match e.source
    case BpmnIo => e.data.RawData?
    case Modeler =>
      || (e.name == ContentSavedName && e.data.ContentSavedData?)
      || (e.name == UIUpdateRequiredName && e.data.UIUpdateRequiredData?)
      || (e.name == NotificationName && e.data.NotificationData?)
      || (e.name == PropertiesPanelResizedName && e.data.PropertiesPanelResizedData?)
      || (e.name == DmnViewsChangedName && e.data.DmnViewsChangedData?)
  }

  /** A well-formed modeler event carries one of the five modeler names. */
  lemma WellFormedModelerName(e: Event)
    requires WellFormed(e) && e.source == Modeler
    ensures e.name in ModelerEventNames
  {
  }

  /** The five modeler names are pairwise distinct. */
  lemma ModelerNamesDistinct()
    ensures forall i, j :: 0 <= i < j < |ModelerEventNames| ==> ModelerEventNames[i] != ModelerEventNames[j]
  {
  }
}
