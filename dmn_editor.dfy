/**
 * The DMN editor (src/editor/DmnEditor.tsx): its event normaliser, which also follows the
 * engine's "views.changed" reports, its import procedure, its container ids, the defaults of
 * its split view sizes and its keyboard effect. Engine operations are given by their outcomes;
 * `hasModeler` says whether the editor's `ref.current` holds an engine.
 */
module DmnEditor {
  import opened Wrappers
  import opened Events
  import opened BpmnIoEvents
  import opened ContentSavedEvent
  import opened DmnViewsChangedEvent
  import opened UIUpdateRequiredEvent
  import opened EventKinds
  import opened EditorCommon

  /** The engine events that make the host refresh its UI. */
  const UIUpdateRequiredEvents: seq<string> := [
    "import.done",
    "saveXML.done",
    "attach",
    "views.changed",
    "view.contentChanged",
    "view.selectionChanged",
    "view.directEditingChanged",
    "propertiesPanel.focusin",
    "propertiesPanel.focusout"
  ]

  /** The engine events after which the diagram is saved and reported. */
  const ContentSavedEvents: seq<string> := ["import.done", "view.contentChanged"]

  const ViewsChanged: string := "views.changed"

  /** Every event that saves, and "views.changed", also refreshes the UI. */
  lemma TablesOverlap()
    ensures forall name :: name in ContentSavedEvents ==> name in UIUpdateRequiredEvents
    ensures ViewsChanged in UIUpdateRequiredEvents && ViewsChanged !in ContentSavedEvents
  {
  }

  /**
   * The payloads `handleEvent` can read: dmn-js sends "views.changed" with its views record
   * (or, in the model, without data, where reading `data.activeView` throws).
   */
  predicate ViewsChangedPayload(name: string, data: Payload) {
    name == ViewsChanged ==> !data.Opaque?
  }

  /** What one engine event leaves behind: the emitted events and the editor's `activeView` state. */
  datatype Handled = Handled(events: seq<Event>, activeView: Option<DmnView>)

  // The parts of an emission, in the order handleEvent emits them.

  function ViewsEvents(name: string, data: Payload): seq<Event> {
    if name == ViewsChanged && data.ViewsPayload? then [CreateDmnViewsChangedEvent(data.views, data.activeView)] else []
  }

  function UIUpdates(name: string, active: bool): seq<Event> {
    if name != "" && name in UIUpdateRequiredEvents then [CreateUIUpdateRequiredEvent(active)] else []
  }

  /** dmn-js's save yields XML only, so the SVG is always undefined. */
  function DiagramSaved(name: string, hasModeler: bool, save: SaveOutcome): seq<Event> {
    if name != "" && name in ContentSavedEvents && hasModeler then
      match save
      case Saved(xml, _) => [CreateContentSavedEvent(xml, None, DiagramChanged)]
      case SaveRejected => []
    else []
  }

  /**
   * `handleEvent(name, data)` with the editor's current `activeView`: the raw event always;
   * while active, "views.changed" adopts the reported active view and reports the views, then
   * come the UI refresh and the saved content.
   */
  function HandleEvent(name: string, data: Payload, active: bool, hasModeler: bool, save: SaveOutcome, activeView: Option<DmnView>): (r: Handled)
    requires ViewsChangedPayload(name, data)
    ensures |r.events| >= 1 && r.events[0] == CreateBpmnIoEvent(name, data)
    ensures forall i :: 1 <= i < |r.events| ==> r.events[i].source == Modeler
    ensures !active ==> r == Handled([CreateBpmnIoEvent(name, data)], activeView)
    ensures r.activeView != activeView ==> active && name == ViewsChanged && data.ViewsPayload? && r.activeView == data.activeView
  {
    var raw := [CreateBpmnIoEvent(name, data)];
    if !active then Handled(raw, activeView)
    else if name == ViewsChanged && data.Undefined? then
      // reading `data.activeView` throws: nothing after the raw event happens
      Handled(raw, activeView)
    else
      Handled(raw + ViewsEvents(name, data) + UIUpdates(name, active) + DiagramSaved(name, hasModeler, save),
              if name == ViewsChanged then data.activeView else activeView)
  }

  /** An active editor receiving the engine's views report adopts it and emits raw, views, UI refresh. */
  lemma ViewsChangedWhileActive(views: seq<DmnView>, reported: Option<DmnView>, hasModeler: bool, save: SaveOutcome, activeView: Option<DmnView>)
    ensures HandleEvent(ViewsChanged, ViewsPayload(views, reported), true, hasModeler, save, activeView)
      == Handled([CreateBpmnIoEvent(ViewsChanged, ViewsPayload(views, reported)),
                  CreateDmnViewsChangedEvent(views, reported),
                  CreateUIUpdateRequiredEvent(true)], reported)
  {
  }

  /** Whether handling goes past the raw forward: the editor is active and reading the payload does not throw. */
  predicate Proceeds(name: string, data: Payload, active: bool) {
    active && !(name == ViewsChanged && data.Undefined?)
  }

  /** Counting `p` over an emission is counting it over its four parts. */
  lemma CountParts(name: string, data: Payload, active: bool, hasModeler: bool, save: SaveOutcome, activeView: Option<DmnView>, p: Event -> bool)
    requires ViewsChangedPayload(name, data)
    ensures var out := HandleEvent(name, data, active, hasModeler, save, activeView).events;
      CountWhere(out, p) == Indicator(p(CreateBpmnIoEvent(name, data))) +
        (if Proceeds(name, data, active)
         then CountWhere(ViewsEvents(name, data), p) + CountWhere(UIUpdates(name, active), p) + CountWhere(DiagramSaved(name, hasModeler, save), p)
         else 0)
  {
    var raw := [CreateBpmnIoEvent(name, data)];
    var out := HandleEvent(name, data, active, hasModeler, save, activeView).events;
    if Proceeds(name, data, active) {
      var v, u, s := ViewsEvents(name, data), UIUpdates(name, active), DiagramSaved(name, hasModeler, save);
      assert out == raw + v + u + s;
      CountWhereConcat4(raw, v, u, s, p);
    } else {
      assert out == raw;
    }
  }

  /** How many events of each kind one engine event produces. */
  lemma HandleEventCounts(name: string, data: Payload, active: bool, hasModeler: bool, save: SaveOutcome, activeView: Option<DmnView>)
    requires ViewsChangedPayload(name, data)
    ensures var out := HandleEvent(name, data, active, hasModeler, save, activeView).events;
      var proceeds := Proceeds(name, data, active);
      && CountWhere(out, IsBpmnIoEvent) == 1
      && CountWhere(out, IsDmnViewsChangedEvent) == Indicator(proceeds && name == ViewsChanged)
      && CountWhere(out, IsUIUpdateRequiredEvent) == Indicator(proceeds && name in UIUpdateRequiredEvents)
      && CountWhere(out, IsContentSavedEvent) == Indicator(proceeds && name in ContentSavedEvents && hasModeler && save.Saved?)
  {
    CountParts(name, data, active, hasModeler, save, activeView, IsBpmnIoEvent);
    CountParts(name, data, active, hasModeler, save, activeView, IsDmnViewsChangedEvent);
    CountParts(name, data, active, hasModeler, save, activeView, IsUIUpdateRequiredEvent);
    CountParts(name, data, active, hasModeler, save, activeView, IsContentSavedEvent);
  }

  /** What each modeler event of an emission says. */
  lemma HandleEventContents(name: string, data: Payload, active: bool, hasModeler: bool, save: SaveOutcome, activeView: Option<DmnView>)
    requires ViewsChangedPayload(name, data)
    ensures forall e :: e in HandleEvent(name, data, active, hasModeler, save, activeView).events ==>
      && WellFormed(e)
      && (IsDmnViewsChangedEvent(e) ==> e == CreateDmnViewsChangedEvent(data.views, data.activeView))
      && (IsUIUpdateRequiredEvent(e) ==> e.data == UIUpdateRequiredData(true))
      && (IsContentSavedEvent(e) ==> save.Saved? && e == CreateContentSavedEvent(save.xml, None, DiagramChanged))
  {
  }

  /** The position of an event's kind in the emission order: raw, views, UI update, content saved. */
  function Stage(e: Event): nat {
    if IsBpmnIoEvent(e) then 0
    else if IsDmnViewsChangedEvent(e) then 1
    else if IsUIUpdateRequiredEvent(e) then 2
    else if IsContentSavedEvent(e) then 3
    else 4
  }

  /** Within one engine event the kinds come in the fixed order, each at most once. */
  lemma HandleEventOrder(name: string, data: Payload, active: bool, hasModeler: bool, save: SaveOutcome, activeView: Option<DmnView>)
    requires ViewsChangedPayload(name, data)
    ensures var out := HandleEvent(name, data, active, hasModeler, save, activeView).events;
      && (forall i :: 0 <= i < |out| ==> Stage(out[i]) <= 3)
      && (forall i, j :: 0 <= i < j < |out| ==> Stage(out[i]) < Stage(out[j]))
  {
    var out := HandleEvent(name, data, active, hasModeler, save, activeView).events;
    if active && !(name == ViewsChanged && data.Undefined?) {
      var raw := [CreateBpmnIoEvent(name, data)];
      var v, u, s := ViewsEvents(name, data), UIUpdates(name, active), DiagramSaved(name, hasModeler, save);
      assert out == raw + v + u + s;
      forall i, j | 0 <= i < j < |out|
        ensures Stage(out[i]) < Stage(out[j])
      {
        assert forall k :: 0 <= k < |v| ==> Stage(v[k]) == 1;
        assert forall k :: 0 <= k < |u| ==> Stage(u[k]) == 2;
        assert forall k :: 0 <= k < |s| ==> Stage(s[k]) == 3;
      }
    }
  }

  /**
   * `importXml(newXml)`: with an engine, export the current XML; when that equals `newXml`
   * stop, otherwise (also when the export fails) import and report warnings or failure.
   */
  function ImportXml(newXml: string, hasModeler: bool, exported: Option<string>, imported: ImportOutcome): (r: ImportReport)
    ensures r.importCalled <==> hasModeler && exported != Some(newXml)
    ensures r.events == if r.importCalled then ImportNotifications(imported) else []
  {
    if !hasModeler then ImportReport(false, [])
    else if exported == Some(newXml) then ImportReport(false, [])
    else ImportReport(true, ImportNotifications(imported))
  }

  /** The modeler container: `containerId || "#dmnview"`. */
  function ModelerContainer(containerId: Option<string>): (id: string)
    ensures id != ""
    ensures containerId.Some? && containerId.value != "" ==> id == containerId.value
    ensures containerId.None? || containerId.value == "" ==> id == "#dmnview"
  {
    OrDefault(containerId, "#dmnview")
  }

  /** The properties panel container: none when hidden, else `containerId || "#dmnprop"`. */
  function PropertiesPanelContainer(hidden: bool, containerId: Option<string>): (id: Option<string>)
    ensures id.None? <==> hidden
    ensures id.Some? ==> id.value != ""
    ensures !hidden && containerId.Some? && containerId.value != "" ==> id == containerId
    ensures !hidden && (containerId.None? || containerId.value == "") ==> id == Some("#dmnprop")
  {
    if hidden then None else Some(OrDefault(containerId, "#dmnprop"))
  }

  /** The optional `size` option of the modeler or the properties panel. */
  datatype SizeOptions = SizeOptions(initial: Option<string>, min: Option<string>, max: Option<string>)

  /** The sizes handed to one pane of the split view. */
  datatype PaneSize = PaneSize(initSize: string, maxSize: string, minSize: string)

  function ResolveSize(size: Option<SizeOptions>, initial: string, max: string, min: string): PaneSize {
    match size
    case None => PaneSize(initial, max, min)
    case Some(s) => PaneSize(OrDefault(s.initial, initial), OrDefault(s.max, max), OrDefault(s.min, min))
  }

  /** The modeler pane: 75% initially, at most 95%, at least 5%, unless the option says otherwise. */
  function ModelerPaneSize(size: Option<SizeOptions>): (r: PaneSize)
    ensures r.initSize != "" && r.maxSize != "" && r.minSize != ""
    ensures size.None? ==> r == PaneSize("75%", "95%", "5%")
    ensures size.Some? ==> r.initSize == OrDefault(size.value.initial, "75%")
    ensures size.Some? ==> r.maxSize == OrDefault(size.value.max, "95%")
    ensures size.Some? ==> r.minSize == OrDefault(size.value.min, "5%")
  {
    ResolveSize(size, "75%", "95%", "5%")
  }

  /** The properties pane: 25% initially, at most 95%, at least 5%, unless the option says otherwise. */
  function PropertiesPaneSize(size: Option<SizeOptions>): (r: PaneSize)
    ensures r.initSize != "" && r.maxSize != "" && r.minSize != ""
    ensures size.None? ==> r == PaneSize("25%", "95%", "5%")
    ensures size.Some? ==> r.initSize == OrDefault(size.value.initial, "25%")
    ensures size.Some? ==> r.maxSize == OrDefault(size.value.max, "95%")
    ensures size.Some? ==> r.minSize == OrDefault(size.value.min, "5%")
  {
    ResolveSize(size, "25%", "95%", "5%")
  }

  /**
   * The keyboard effect, run when `active` or the active view changes: it reports a UI
   * refresh; while active it binds the keyboard at once when the engine has an active viewer,
   * and otherwise after a delay; its cleanup unbinds.
   */
  datatype KeyboardEffect = KeyboardEffect(events: seq<Event>, now: KeyboardCall, deferred: KeyboardCall, cleanup: KeyboardCall)

  function OnActiveChanged(active: bool, hasModeler: bool, hasActiveViewer: bool): (r: KeyboardEffect)
    ensures r.events == [CreateUIUpdateRequiredEvent(active)]
    ensures r.now != Unbind && r.deferred != Unbind && r.cleanup != Bind
    ensures (r.now == Bind || r.deferred == Bind) <==> active && hasModeler
    ensures r.now == Bind <==> active && hasModeler && hasActiveViewer
    ensures r.deferred == Bind <==> active && hasModeler && !hasActiveViewer
    ensures r.cleanup == Unbind <==> active && hasModeler
  {
    var events := [CreateUIUpdateRequiredEvent(active)];
    if !active || !hasModeler then KeyboardEffect(events, NoCall, NoCall, NoCall)
    else if hasActiveViewer then KeyboardEffect(events, Bind, NoCall, Unbind)
    else KeyboardEffect(events, NoCall, Bind, Unbind)
  }

  /** What the keyboard effect depends on: the `active` prop and the editor's `activeView` state. */
  datatype EffectDeps = EffectDeps(active: bool, activeView: Option<DmnView>)

  /**
   * The events the keyboard effect sends when the editor goes from `before` to `after`
   * (None while not mounted): it runs on mount and whenever one of its inputs changes.
   */
  function EffectEvents(before: Option<EffectDeps>, after: Option<EffectDeps>): (events: seq<Event>)
    ensures events == [] <==> after.None? || before == after
    ensures events != [] ==> events == OnActiveChanged(after.value.active, true, true).events
  {
    if after.Some? && before != after then OnActiveChanged(after.value.active, true, true).events else []
  }
}
