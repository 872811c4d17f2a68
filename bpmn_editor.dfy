/**
 * The BPMN editor (src/editor/BpmnEditor.tsx): how it turns each bpmn-js event into the
 * events the host receives, how it imports new XML, how it resolves its container ids and
 * what its active effect does. The engine's `save`, `saveXML` and `importXML` are given by
 * their outcomes; `hasModeler` says whether the editor's `ref.current` holds an engine.
 */
module BpmnEditor {
  import opened Wrappers
  import opened Events
  import opened BpmnIoEvents
  import opened ContentSavedEvent
  import opened NotificationEvent
  import opened UIUpdateRequiredEvent
  import opened EventKinds
  import opened EditorCommon

  /** The engine events that make the host refresh its UI. */
  const UIUpdateRequiredEvents: seq<string> := [
    "import.done",
    "saveXML.done",
    "commandStack.changed",
    "selection.changed",
    "attach",
    "elements.copied",
    "propertiesPanel.focusin",
    "propertiesPanel.focusout",
    "directEditing.activate",
    "directEditing.deactivate",
    "searchPad.closed",
    "searchPad.opened"
  ]

  /** The engine events after which the diagram is saved and reported. */
  const ContentSavedEvents: seq<string> := ["import.done", "commandStack.changed"]

  const ElementTemplatesErrors: string := "elementTemplates.errors"
  const ElementTemplatesErrorMessage: string := "Importing element templates failed. Check console for details."

  /** Every event that saves also refreshes the UI, so a content.saved never comes alone. */
  lemma SavingEventsRefresh()
    ensures forall name :: name in ContentSavedEvents ==> name in UIUpdateRequiredEvents
    ensures ElementTemplatesErrors !in UIUpdateRequiredEvents && ElementTemplatesErrors !in ContentSavedEvents
  {
  }

  // The four parts of an emission, in the order handleEvent emits them.

  function TemplateErrors(name: string): seq<Event> {
    if name == ElementTemplatesErrors then [CreateNotificationEvent(ElementTemplatesErrorMessage, Error)] else []
  }

  function UIUpdates(name: string, active: bool): seq<Event> {
    if name != "" && name in UIUpdateRequiredEvents then [CreateUIUpdateRequiredEvent(active)] else []
  }

  function DiagramSaved(name: string, hasModeler: bool, save: SaveOutcome): seq<Event> {
    if name != "" && name in ContentSavedEvents && hasModeler then
      match save
      case Saved(xml, svg) => [CreateContentSavedEvent(xml, svg, DiagramChanged)]
      case SaveRejected => []
    else []
  }

  /**
   * The events `handleEvent(name, data)` hands to `onEvent`, in order: the raw event always,
   * and only while the editor is active the template error, the UI refresh and the saved content.
   */
  function HandleEvent(name: string, data: Payload, active: bool, hasModeler: bool, save: SaveOutcome): (out: seq<Event>)
    ensures |out| >= 1 && out[0] == CreateBpmnIoEvent(name, data)
    ensures forall i :: 1 <= i < |out| ==> out[i].source == Modeler
    ensures !active ==> out == [CreateBpmnIoEvent(name, data)]
  {
    var raw := [CreateBpmnIoEvent(name, data)];
    if !active then raw
    else raw + TemplateErrors(name) + UIUpdates(name, active) + DiagramSaved(name, hasModeler, save)
  }

  /** How many events of each kind one engine event produces. */
  lemma HandleEventCounts(name: string, data: Payload, active: bool, hasModeler: bool, save: SaveOutcome)
    ensures var out := HandleEvent(name, data, active, hasModeler, save);
      && CountWhere(out, IsBpmnIoEvent) == 1
      && CountWhere(out, IsNotificationEvent) == Indicator(active && name == ElementTemplatesErrors)
      && CountWhere(out, IsUIUpdateRequiredEvent) == Indicator(active && name in UIUpdateRequiredEvents)
      && CountWhere(out, IsContentSavedEvent) == Indicator(active && name in ContentSavedEvents && hasModeler && save.Saved?)
  {
    var raw := [CreateBpmnIoEvent(name, data)];
    if active {
      var n, u, s := TemplateErrors(name), UIUpdates(name, active), DiagramSaved(name, hasModeler, save);
      CountWhereConcat4(raw, n, u, s, IsBpmnIoEvent);
      CountWhereConcat4(raw, n, u, s, IsNotificationEvent);
      CountWhereConcat4(raw, n, u, s, IsUIUpdateRequiredEvent);
      CountWhereConcat4(raw, n, u, s, IsContentSavedEvent);
    }
  }

  /** What each modeler event of an emission says. */
  lemma HandleEventContents(name: string, data: Payload, active: bool, hasModeler: bool, save: SaveOutcome)
    ensures forall e :: e in HandleEvent(name, data, active, hasModeler, save) ==>
      && WellFormed(e)
      && (IsNotificationEvent(e) ==> e == CreateNotificationEvent(ElementTemplatesErrorMessage, Error))
      && (IsUIUpdateRequiredEvent(e) ==> e.data == UIUpdateRequiredData(true))
      && (IsContentSavedEvent(e) ==> save.Saved? && e == CreateContentSavedEvent(save.xml, save.svg, DiagramChanged))
  {
  }

  /** The position of an event's kind in the emission order: raw, notification, UI update, content saved. */
  function Stage(e: Event): nat {
    if IsBpmnIoEvent(e) then 0
    else if IsNotificationEvent(e) then 1
    else if IsUIUpdateRequiredEvent(e) then 2
    else if IsContentSavedEvent(e) then 3
    else 4
  }

  /** Within one engine event the kinds come in the fixed order, each at most once. */
  lemma HandleEventOrder(name: string, data: Payload, active: bool, hasModeler: bool, save: SaveOutcome)
    ensures var out := HandleEvent(name, data, active, hasModeler, save);
      && (forall i :: 0 <= i < |out| ==> Stage(out[i]) <= 3)
      && (forall i, j :: 0 <= i < j < |out| ==> Stage(out[i]) < Stage(out[j]))
  {
    var out := HandleEvent(name, data, active, hasModeler, save);
    assert forall i :: 0 <= i < |out| ==> Stage(out[i]) <= 3;
    if active {
      var raw := [CreateBpmnIoEvent(name, data)];
      var n, u, s := TemplateErrors(name), UIUpdates(name, active), DiagramSaved(name, hasModeler, save);
      assert out == raw + n + u + s;
      forall i, j | 0 <= i < j < |out|
        ensures Stage(out[i]) < Stage(out[j])
      {
        assert forall k :: 0 <= k < |n| ==> Stage(n[k]) == 1;
        assert forall k :: 0 <= k < |u| ==> Stage(u[k]) == 2;
        assert forall k :: 0 <= k < |s| ==> Stage(s[k]) == 3;
      }
    }
  }

  /** An engine event in neither table is only passed through (e.g. "foo.bar"). */
  lemma UnlistedIsOnlyForwarded(name: string, data: Payload, active: bool, hasModeler: bool, save: SaveOutcome)
    requires name !in UIUpdateRequiredEvents && name !in ContentSavedEvents && name != ElementTemplatesErrors
    ensures HandleEvent(name, data, active, hasModeler, save) == [CreateBpmnIoEvent(name, data)]
  {
  }

  /**
   * `importXml(newXml)`: with an engine, export the current XML; when that equals `newXml`
   * stop, otherwise (also when the export fails) import and report warnings or failure.
   */
  function ImportXml(newXml: string, hasModeler: bool, exported: Option<string>, imported: ImportOutcome): (r: ImportReport)
    ensures r.importCalled <==> hasModeler && exported != Some(newXml)
    ensures r.events == if r.importCalled then ImportNotifications(imported) else []
  {
    if !hasModeler then ImportReport(false, [])
    else if exported == Some(newXml) then ImportReport(false, [])
    else ImportReport(true, ImportNotifications(imported))
  }

  /**
   * Setting the same XML again is a no-op once the engine exports it: after an import of `xml`
   * whose export round-trips, a second `importXml(xml)` neither imports nor emits.
   */
  lemma ReimportIsSkipped(xml: string, imported: ImportOutcome)
    ensures ImportXml(xml, true, Some(xml), imported) == ImportReport(false, [])
  {
  }

  /** The modeler container: `containerId || "#bpmnview"`. */
  function ModelerContainer(containerId: Option<string>): (id: string)
    ensures id != ""
    ensures containerId.Some? && containerId.value != "" ==> id == containerId.value
    ensures containerId.None? || containerId.value == "" ==> id == "#bpmnview"
  {
    OrDefault(containerId, "#bpmnview")
  }

  /** The properties panel container: none when hidden, else `containerId || "#bpmnprop"`. */
  function PropertiesPanelContainer(hidden: bool, containerId: Option<string>): (id: Option<string>)
    ensures id.None? <==> hidden
    ensures id.Some? ==> id.value != ""
    ensures !hidden && containerId.Some? && containerId.value != "" ==> id == containerId
    ensures !hidden && (containerId.None? || containerId.value == "") ==> id == Some("#bpmnprop")
  {
    if hidden then None else Some(OrDefault(containerId, "#bpmnprop"))
  }

  /** What the effect on `active` does: it reports a UI refresh and (un)binds the keyboard. */
  datatype ActiveEffect = ActiveEffect(events: seq<Event>, keyboard: KeyboardCall)

  function OnActiveChanged(active: bool, hasModeler: bool): (r: ActiveEffect)
    ensures r.events == [CreateUIUpdateRequiredEvent(active)]
    ensures r.keyboard == Bind <==> active && hasModeler
    ensures r.keyboard == Unbind <==> !active && hasModeler
  {
    ActiveEffect([CreateUIUpdateRequiredEvent(active)], if !hasModeler then NoCall else if active then Bind else Unbind)
  }

  /**
   * The events the effect on `active` sends when the editor goes from `before` to `after`, each
   * the editor's `active` prop while mounted or None while not: the effect runs on mount and
   * whenever `active` changes, never on unmount.
   */
  function ActiveEffectEvents(before: Option<bool>, after: Option<bool>): (events: seq<Event>)
    ensures events == [] <==> after.None? || before == after
    ensures events != [] ==> events == OnActiveChanged(after.value, true).events
  {
    if after.Some? && before != after then OnActiveChanged(after.value, true).events else []
  }
}
