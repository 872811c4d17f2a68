/**
 * The DMN modeler component (src/DmnModeler.tsx): the DMN editor with one toggle button per
 * dmn-js view plus one for the XML editor. `activeView` is the component's state of that name:
 * unset at first, a toggle id once chosen, and whatever the engine reported as active view after
 * a "views.changed" event (a view record, not its id). `sent` is what the modelled steps
 * hand to the host's `onEvent`: the editor's emissions for engine events, saves, XML edits and
 * the UI refreshes of the DMN editor's keyboard effect; import notifications and
 * "properties.panel.resized" come from steps this class does not model. `openedViews` holds
 * the view ids handed to the engine's `open`.
 */
module DmnModeler {
  import opened Wrappers
  import opened Events
  import opened ContentSavedEvent
  import opened BpmnIoEvents
  import opened EditorCommon
  import DmnEditor
  import XmlEditor

  /** The `activeView` state. */
  datatype ActiveView = Unset | ViewId(id: string) | ViewObject(view: DmnView)

  datatype ToggleIcon = ViewIcon(viewType: ViewType) | CodeIcon

  /** A toggle button: the id it selects, its icon and, for views, its title. */
  datatype ToggleOption = ToggleOption(id: string, icon: ToggleIcon, title: Option<string>)

  /** A view's button title: its name, or "Unnamed" when the name is empty. */
  function Label(view: DmnView): (s: string)
    ensures s != ""
    ensures view.name != "" ==> s == view.name
    ensures view.name == "" ==> s == "Unnamed"
  {
    if view.name != "" then view.name else "Unnamed"
  }

  function ViewOption(view: DmnView): ToggleOption {
    ToggleOption(view.id, ViewIcon(view.viewType), Some(Label(view)))
  }

  /** The toggle's buttons: one per view, in the engine's order, then "xml". */
  function ToggleOptions(views: seq<DmnView>): (r: seq<ToggleOption>)
    ensures |r| == |views| + 1
  {
    seq(|views|, i requires 0 <= i < |views| => ViewOption(views[i])) + [ToggleOption("xml", CodeIcon, None)]
  }

  /** Every view has the button that selects its id and shows its type and a non-empty title, and the XML button is last. */
  lemma ToggleOptionsCoverViews(views: seq<DmnView>)
    ensures forall i :: 0 <= i < |views| ==>
      && ToggleOptions(views)[i].id == views[i].id
      && ToggleOptions(views)[i].icon == ViewIcon(views[i].viewType)
      && ToggleOptions(views)[i].title.Some? && ToggleOptions(views)[i].title.value != ""
    ensures ToggleOptions(views)[|views|] == ToggleOption("xml", CodeIcon, None)
  {
  }

  /** The toggle's `active` prop, `activeView || ""`; a view record equals no button id (None). */
  function ToggleActive(activeView: ActiveView): (a: Option<string>)
    ensures a.None? <==> activeView.ViewObject?
    ensures activeView.Unset? ==> a == Some("")
    ensures activeView.ViewId? ==> a == Some(activeView.id)
  {
    match activeView
    case Unset => Some("")
    case ViewId(id) => Some(id)
    case ViewObject(_) => None
  }

  /** Which buttons are highlighted: those whose id equals the toggle's `active` prop. */
  function Highlighted(activeView: ActiveView, options: seq<ToggleOption>): (h: seq<bool>)
    ensures |h| == |options|
  {
    seq(|options|, i requires 0 <= i < |options| => ToggleActive(activeView) == Some(options[i].id))
  }

  /** Choosing a button highlights it, and only the buttons sharing its id. */
  lemma ChosenIsHighlighted(views: seq<DmnView>, i: nat)
    requires i < |ToggleOptions(views)|
    ensures var options := ToggleOptions(views);
      var id := options[i].id;
      id != "" ==> forall j :: 0 <= j < |options| ==> (Highlighted(ViewId(id), options)[j] <==> options[j].id == id)
  {
  }

  /** After the engine reported its active view as a record, no button is highlighted. */
  lemma ReportedViewHighlightsNothing(view: DmnView, options: seq<ToggleOption>)
    ensures forall j :: 0 <= j < |options| ==> !Highlighted(ViewObject(view), options)[j]
  {
  }

  /** The state `localOnEvent` leaves: engine "views.changed" events with data replace both the active view and the views. */
  predicate AdoptsViews(e: Event) {
    e.source == BpmnIo && e.name == DmnEditor.ViewsChanged && e.data.RawData? && e.data.payload.ViewsPayload?
  }

  /** The events `localOnEvent` can read: a "views.changed" event with data carries the views record. */
  predicate Readable(e: Event) {
    e.source == BpmnIo && e.name == DmnEditor.ViewsChanged && e.data.RawData? ==> !e.data.payload.Opaque?
  }

  function ViewAfter(activeView: ActiveView, e: Event): (a: ActiveView)
    ensures !AdoptsViews(e) ==> a == activeView
    ensures AdoptsViews(e) ==> a == (if e.data.payload.activeView.Some? then ViewObject(e.data.payload.activeView.value) else Unset)
  {
    if AdoptsViews(e) then
      match e.data.payload.activeView
      case None => Unset
      case Some(v) => ViewObject(v)
    else activeView
  }

  function ViewsAfter(views: seq<DmnView>, e: Event): (vs: seq<DmnView>)
    ensures !AdoptsViews(e) ==> vs == views
    ensures AdoptsViews(e) ==> vs == e.data.payload.views
  {
    if AdoptsViews(e) then e.data.payload.views else views
  }

  /** Only the engine's own events can change the modeler's view state: the editor's modeler events never do. */
  lemma ModelerEventsKeepViews(e: Event, activeView: ActiveView, views: seq<DmnView>)
    requires e.source == Modeler
    ensures ViewAfter(activeView, e) == activeView && ViewsAfter(views, e) == views
  {
  }

  class DmnModeler {
    var xml: string
    var modelerTabDisabled: bool
    var xmlTabDisabled: bool
    var views: seq<DmnView>
    var activeView: ActiveView
    /** The DMN editor's own `activeView` state. */
    var editorView: Option<DmnView>
    var modelerRef: Option<Engine>
    var sent: seq<Event>
    var openedViews: seq<string>

    /**
     * Mounting: no views, no active view, and the tab-options effect runs once; a mounted DMN
     * editor reports its `active` through its keyboard effect.
     */
    constructor (xml: string, modelerTabDisabled: bool, xmlTabDisabled: bool)
      ensures this.xml == xml && this.modelerTabDisabled == modelerTabDisabled && this.xmlTabDisabled == xmlTabDisabled
      ensures activeView == if modelerTabDisabled && !xmlTabDisabled then ViewId("xml") else Unset
      ensures views == [] && editorView == None && modelerRef == None && openedViews == []
      ensures sent == DmnEditor.EffectEvents(None, EditorDeps())
    {
      this.xml := xml;
      this.modelerTabDisabled := modelerTabDisabled;
      this.xmlTabDisabled := xmlTabDisabled;
      views := [];
      activeView := if modelerTabDisabled && !xmlTabDisabled then ViewId("xml") else Unset;
      editorView := None;
      modelerRef := None;
      openedViews := [];
      new;
      sent := DmnEditor.EffectEvents(None, EditorDeps());
    }

    /** The inputs of the DMN editor's keyboard effect while it is mounted, None while it is not. */
    function EditorDeps(): (d: Option<DmnEditor.EffectDeps>)
      reads this
      ensures d.Some? <==> ShowsDmnEditor()
      ensures d.Some? ==> (d.value.active <==> DmnEditorActive()) && d.value.activeView == editorView
    {
      if ShowsDmnEditor() then Some(DmnEditor.EffectDeps(DmnEditorActive(), editorView)) else None
    }

    /**
     * New tab options: the effect may select "xml" and otherwise leaves the active view alone.
     * A DMN editor they unmount loses its state, one they mount starts without a view and
     * reports its `active`, and one that stays reports a changed `active`.
     */
    method SetTabOptions(modelerTabDisabled: bool, xmlTabDisabled: bool)
      modifies this
      ensures this.modelerTabDisabled == modelerTabDisabled && this.xmlTabDisabled == xmlTabDisabled
      ensures activeView == if modelerTabDisabled && !xmlTabDisabled then ViewId("xml") else old(activeView)
      ensures editorView == if old(ShowsDmnEditor()) && ShowsDmnEditor() then old(editorView) else None
      ensures sent == old(sent) + DmnEditor.EffectEvents(old(EditorDeps()), EditorDeps())
      ensures xml == old(xml) && views == old(views)
      ensures modelerRef == old(modelerRef) && openedViews == old(openedViews)
    {
      var before := EditorDeps();
      var wasShown := ShowsDmnEditor();
      this.modelerTabDisabled := modelerTabDisabled;
      this.xmlTabDisabled := xmlTabDisabled;
      if modelerTabDisabled && !xmlTabDisabled {
        activeView := ViewId("xml");
      }
      if !(wasShown && ShowsDmnEditor()) {
        editorView := None;
      }
      sent := sent + DmnEditor.EffectEvents(before, EditorDeps());
    }

    /** `saveFile(reason)`: as in the BPMN modeler, but the saved SVG is never passed on. */
    method SaveFile(reason: ContentSavedReason, outcome: SaveOutcome) returns (completed: bool)
      modifies this
      ensures completed <==> modelerRef.None? || outcome.Saved?
      ensures sent == if modelerRef.Some? && outcome.Saved?
                      then old(sent) + [CreateContentSavedEvent(outcome.xml, None, reason)]
                      else old(sent)
      ensures xml == old(xml) && modelerTabDisabled == old(modelerTabDisabled) && xmlTabDisabled == old(xmlTabDisabled)
      ensures views == old(views) && activeView == old(activeView) && editorView == old(editorView)
      ensures modelerRef == old(modelerRef) && openedViews == old(openedViews)
    {
      completed := true;
      if modelerRef.Some? {
        match outcome
        case Saved(x, _) =>
          sent := sent + [CreateContentSavedEvent(x, None, reason)];
        case SaveRejected =>
          completed := false;
      }
    }

    /**
     * `changeMode(value)`: nothing for null or the id already active; otherwise save with reason
     * "view.changed" and, unless that rejected, make `value` active and open it in the engine
     * when it names a view rather than "xml".
     */
    method ChangeMode(value: Option<string>, outcome: SaveOutcome)
      modifies this
      ensures var proceeds := value.Some? && ViewId(value.value) != old(activeView);
        var completes := proceeds && (modelerRef.None? || outcome.Saved?);
        && activeView == (if completes then ViewId(value.value) else old(activeView))
        && openedViews == (if completes && value.value != "xml" && modelerRef.Some? then old(openedViews) + [value.value] else old(openedViews))
      ensures sent == (if value.Some? && ViewId(value.value) != old(activeView) && modelerRef.Some? && outcome.Saved?
                       then old(sent) + [CreateContentSavedEvent(outcome.xml, None, ViewChanged)]
                       else old(sent))
                      + DmnEditor.EffectEvents(old(EditorDeps()), EditorDeps())
      ensures xml == old(xml) && modelerTabDisabled == old(modelerTabDisabled) && xmlTabDisabled == old(xmlTabDisabled)
      ensures views == old(views) && editorView == old(editorView) && modelerRef == old(modelerRef)
    {
      var before := EditorDeps();
      if value.Some? && ViewId(value.value) != activeView {
        var completed := SaveFile(ViewChanged, outcome);
        if completed {
          activeView := ViewId(value.value);
          sent := sent + DmnEditor.EffectEvents(before, EditorDeps());
          if value.value != "xml" && modelerRef.Some? {
            openedViews := openedViews + [value.value];
          }
        }
      }
    }

    /** `localOnEvent(e)`: adopt an engine views report, then pass the event on to the host. */
    method LocalOnEvent(e: Event)
      requires Readable(e)
      modifies this
      ensures activeView == ViewAfter(old(activeView), e) && views == ViewsAfter(old(views), e)
      ensures sent == old(sent) + [e]
      ensures xml == old(xml) && modelerTabDisabled == old(modelerTabDisabled) && xmlTabDisabled == old(xmlTabDisabled)
      ensures editorView == old(editorView) && modelerRef == old(modelerRef) && openedViews == old(openedViews)
    {
      if e.source == BpmnIo && e.name == DmnEditor.ViewsChanged && e.data.RawData? && e.data.payload.ViewsPayload? {
        activeView := match e.data.payload.activeView
          case None => Unset
          case Some(v) => ViewObject(v);
        views := e.data.payload.views;
      }
      sent := sent + [e];
    }

    /** The DMN editor is active exactly when the active view is the id "bpmn". */
    predicate DmnEditorActive()
      reads this
    {
      activeView == ViewId("bpmn")
    }

    /** The XML editor is active exactly when the active view is the id "xml". */
    predicate XmlEditorActive()
      reads this
    {
      activeView == ViewId("xml")
    }

    lemma AtMostOneActive()
      ensures !(DmnEditorActive() && XmlEditorActive())
    {
    }

    /**
     * An engine event of the mounted DMN editor: the editor handles it with the `active` it was
     * rendered with, and every event it emits goes through `localOnEvent` in order. Only the
     * forwarded engine event itself can change the modeler's views.
     */
    method EngineEvent(name: string, data: Payload, hasModeler: bool, save: SaveOutcome)
      requires ShowsDmnEditor()
      requires DmnEditor.ViewsChangedPayload(name, data)
      modifies this
      ensures var handled := DmnEditor.HandleEvent(name, data, old(DmnEditorActive()), hasModeler, save, old(editorView));
        && sent == old(sent) + handled.events + DmnEditor.EffectEvents(old(EditorDeps()), EditorDeps())
        && editorView == handled.activeView
      ensures var raw := CreateBpmnIoEvent(name, data);
        activeView == ViewAfter(old(activeView), raw) && views == ViewsAfter(old(views), raw)
      ensures xml == old(xml) && modelerTabDisabled == old(modelerTabDisabled) && xmlTabDisabled == old(xmlTabDisabled)
      ensures modelerRef == old(modelerRef) && openedViews == old(openedViews)
    {
      var deps := EditorDeps();
      var handled := DmnEditor.HandleEvent(name, data, DmnEditorActive(), hasModeler, save, editorView);
      var events := handled.events;
      editorView := handled.activeView;
      var raw := CreateBpmnIoEvent(name, data);
      ghost var before := sent;
      ghost var activeBefore := activeView;
      ghost var viewsBefore := views;
      for i := 0 to |events|
        invariant sent == before + events[..i]
        invariant i == 0 ==> activeView == activeBefore && views == viewsBefore
        invariant i > 0 ==> activeView == ViewAfter(activeBefore, raw) && views == ViewsAfter(viewsBefore, raw)
        invariant xml == old(xml) && modelerTabDisabled == old(modelerTabDisabled) && xmlTabDisabled == old(xmlTabDisabled)
        invariant editorView == handled.activeView && modelerRef == old(modelerRef) && openedViews == old(openedViews)
      {
        if i > 0 {
          ModelerEventsKeepViews(events[i], activeView, views);
        }
        assert events[..i + 1] == events[..i] + [events[i]];
        LocalOnEvent(events[i]);
      }
      assert events[..|events|] == events;
      sent := sent + DmnEditor.EffectEvents(deps, EditorDeps());
    }

    /** An edit in the mounted XML editor, gated by its `active` prop, reaches the host as "xml.changed". */
    method XmlEdited(value: string)
      requires ShowsXmlEditor()
      modifies this
      ensures sent == if XmlEditorActive() then old(sent) + [CreateContentSavedEvent(value, None, XmlChanged)] else old(sent)
      ensures xml == old(xml) && modelerTabDisabled == old(modelerTabDisabled) && xmlTabDisabled == old(xmlTabDisabled)
      ensures views == old(views) && activeView == old(activeView) && editorView == old(editorView)
      ensures modelerRef == old(modelerRef) && openedViews == old(openedViews)
    {
      var forwarded := XmlEditor.OnXmlChanged(XmlEditorActive(), value);
      if forwarded.Some? {
        sent := sent + [CreateContentSavedEvent(forwarded.value, None, XmlChanged)];
      }
    }

    /** Nothing is rendered while the XML is empty. */
    predicate Renders()
      reads this
    {
      xml != ""
    }

    predicate ShowsDmnEditor()
      reads this
    {
      Renders() && !modelerTabDisabled
    }

    predicate ShowsXmlEditor()
      reads this
    {
      Renders() && !xmlTabDisabled
    }

    /** The view toggle appears with the DMN editor, whether or not the XML tab is enabled. */
    predicate ShowsToggle()
      reads this
    {
      Renders() && !modelerTabDisabled
    }

    /** Unlike the BPMN modeler's, the toggle shows exactly with the DMN editor, whether or not the XML tab is enabled. */
    lemma ToggleFollowsEditor()
      ensures ShowsToggle() <==> ShowsDmnEditor()
      ensures ShowsToggle() ==> (ShowsXmlEditor() <==> !xmlTabDisabled)
    {
    }

    /** The toggle's buttons for the current views. */
    function Options(): (r: seq<ToggleOption>)
      reads this
      ensures |r| == |views| + 1
    {
      ToggleOptions(views)
    }
  }
}
