/**
 * The BPMN modeler component (src/BpmnModeler.tsx): a diagram tab and an XML tab, one of them
 * shown at a time according to `mode`. `sent` is the sequence of events that the modelled steps
 * hand to the host's `onEvent`: the editor's emissions for engine events, saves, XML edits and
 * the UI refreshes of the BPMN editor's effect on `active`. Import notifications and
 * "properties.panel.resized" come from steps this class does not model. The component's `modelerRef` is never assigned by the source, so it stays unset
 * from construction on; the methods are stated for either value.
 */
module BpmnModeler {
  import opened Wrappers
  import opened Events
  import opened ContentSavedEvent
  import opened EditorCommon
  import BpmnEditor
  import XmlEditor

  /** `BpmnViewMode`: "bpmn" or "xml". */
  datatype ViewMode = Bpmn | Xml

  function ModeId(mode: ViewMode): string {
    match mode
    case Bpmn => "bpmn"
    case Xml => "xml"
  }

  /** The icon a toggle button shows. */
  datatype ToggleIcon = EditIcon | CodeIcon

  datatype ToggleOption = ToggleOption(id: string, icon: ToggleIcon)

  /** The toggle's buttons: the diagram first, then the XML. */
  const ToggleOptions: seq<ToggleOption> := [ToggleOption("bpmn", EditIcon), ToggleOption("xml", CodeIcon)]

  /** Each toggle button selects the mode whose id it carries. */
  lemma ToggleOptionsCoverModes()
    ensures |ToggleOptions| == 2
    ensures forall mode: ViewMode :: exists i :: 0 <= i < |ToggleOptions| && ToggleOptions[i].id == ModeId(mode)
  {
    assert ToggleOptions[0].id == ModeId(Bpmn);
    assert ToggleOptions[1].id == ModeId(Xml);
  }

  /** The mode after the tab-options effect: "xml" when only the XML tab is enabled, else unchanged. */
  function ModeAfterTabOptions(mode: ViewMode, modelerTabDisabled: bool, xmlTabDisabled: bool): (m: ViewMode)
    ensures m == Xml <==> mode == Xml || (modelerTabDisabled && !xmlTabDisabled)
  {
    if modelerTabDisabled && !xmlTabDisabled then Xml else mode
  }

  class BpmnModeler {
    var xml: string
    var modelerTabDisabled: bool
    var xmlTabDisabled: bool
    var mode: ViewMode
    var modelerRef: Option<Engine>
    var sent: seq<Event>

    /**
     * Mounting: `mode` starts as "bpmn" and the tab-options effect runs once; a mounted BPMN
     * editor reports its `active` through its own effect.
     */
    constructor (xml: string, modelerTabDisabled: bool, xmlTabDisabled: bool)
      ensures this.xml == xml && this.modelerTabDisabled == modelerTabDisabled && this.xmlTabDisabled == xmlTabDisabled
      ensures mode == ModeAfterTabOptions(Bpmn, modelerTabDisabled, xmlTabDisabled)
      ensures modelerRef == None
      ensures sent == BpmnEditor.ActiveEffectEvents(None, EditorActivity())
    {
      this.xml := xml;
      this.modelerTabDisabled := modelerTabDisabled;
      this.xmlTabDisabled := xmlTabDisabled;
      mode := if modelerTabDisabled && !xmlTabDisabled then Xml else Bpmn;
      modelerRef := None;
      new;
      sent := BpmnEditor.ActiveEffectEvents(None, EditorActivity());
    }

    /**
     * The BPMN editor's `active` prop while it is mounted, None while it is not: the input of
     * its effect on `active`.
     */
    function EditorActivity(): (a: Option<bool>)
      reads this
      ensures a.Some? <==> ShowsBpmnEditor()
      ensures a.Some? ==> (a.value <==> BpmnEditorActive())
    {
      if ShowsBpmnEditor() then Some(BpmnEditorActive()) else None
    }

    /**
     * New tab options: the effect may move to "xml" but never back to "bpmn"; a BPMN editor
     * mounted by them reports its `active`.
     */
    method SetTabOptions(modelerTabDisabled: bool, xmlTabDisabled: bool)
      modifies this
      ensures this.modelerTabDisabled == modelerTabDisabled && this.xmlTabDisabled == xmlTabDisabled
      ensures mode == ModeAfterTabOptions(old(mode), modelerTabDisabled, xmlTabDisabled)
      ensures sent == old(sent) + BpmnEditor.ActiveEffectEvents(old(EditorActivity()), EditorActivity())
      ensures xml == old(xml) && modelerRef == old(modelerRef)
    {
      var before := EditorActivity();
      this.modelerTabDisabled := modelerTabDisabled;
      this.xmlTabDisabled := xmlTabDisabled;
      if modelerTabDisabled && !xmlTabDisabled {
        mode := Xml;
      }
      sent := sent + BpmnEditor.ActiveEffectEvents(before, EditorActivity());
    }

    /**
     * `saveFile(reason)`: only with an engine in `modelerRef`, save and report the result.
     * `completed` is false when the save rejects, which rejects `saveFile` too.
     */
    method SaveFile(reason: ContentSavedReason, outcome: SaveOutcome) returns (completed: bool)
      modifies this
      ensures completed <==> modelerRef.None? || outcome.Saved?
      ensures sent == if modelerRef.Some? && outcome.Saved?
                      then old(sent) + [CreateContentSavedEvent(outcome.xml, outcome.svg, reason)]
                      else old(sent)
      ensures xml == old(xml) && modelerTabDisabled == old(modelerTabDisabled) && xmlTabDisabled == old(xmlTabDisabled)
      ensures mode == old(mode) && modelerRef == old(modelerRef)
    {
      completed := true;
      if modelerRef.Some? {
        match outcome
        case Saved(x, svg) =>
          sent := sent + [CreateContentSavedEvent(x, svg, reason)];
        case SaveRejected =>
          completed := false;
      }
    }

    /**
     * `changeMode(value)`: nothing for null or the current mode; otherwise save with reason
     * "view.changed" and, when that did not reject, switch to `value`, after which a mounted
     * BPMN editor reports its new `active`.
     */
    method ChangeMode(value: Option<ViewMode>, outcome: SaveOutcome)
      modifies this
      ensures var switching := value.Some? && value.value != old(mode);
        && mode == (if switching && (modelerRef.None? || outcome.Saved?) then value.value else old(mode))
        && sent == (if switching && modelerRef.Some? && outcome.Saved?
                    then old(sent) + [CreateContentSavedEvent(outcome.xml, outcome.svg, ViewChanged)]
                    else old(sent))
                   + BpmnEditor.ActiveEffectEvents(old(EditorActivity()), EditorActivity())
      ensures xml == old(xml) && modelerTabDisabled == old(modelerTabDisabled) && xmlTabDisabled == old(xmlTabDisabled)
      ensures modelerRef == old(modelerRef)
    {
      var before := EditorActivity();
      if value.Some? && value.value != mode {
        var completed := SaveFile(ViewChanged, outcome);
        if completed {
          mode := value.value;
          sent := sent + BpmnEditor.ActiveEffectEvents(before, EditorActivity());
        }
      }
    }

    /** The BPMN editor is active exactly in mode "bpmn". */
    predicate BpmnEditorActive()
      reads this
    {
      mode == Bpmn
    }

    /** The XML editor is active exactly in mode "xml". */
    predicate XmlEditorActive()
      reads this
    {
      mode == Xml
    }

    /** At most one editor is active. */
    lemma AtMostOneActive()
      ensures !(BpmnEditorActive() && XmlEditorActive())
      ensures BpmnEditorActive() || XmlEditorActive()
    {
    }

    /** An edit in the mounted XML editor, gated by its `active` prop, reaches the host as "xml.changed". */
    method XmlEdited(value: string)
      requires ShowsXmlEditor()
      modifies this
      ensures sent == if XmlEditorActive() then old(sent) + [CreateContentSavedEvent(value, None, XmlChanged)] else old(sent)
      ensures xml == old(xml) && modelerTabDisabled == old(modelerTabDisabled) && xmlTabDisabled == old(xmlTabDisabled)
      ensures mode == old(mode) && modelerRef == old(modelerRef)
    {
      var forwarded := XmlEditor.OnXmlChanged(XmlEditorActive(), value);
      if forwarded.Some? {
        sent := sent + [CreateContentSavedEvent(forwarded.value, None, XmlChanged)];
      }
    }

    /** An engine event of the mounted BPMN editor, which is handed the host's `onEvent` unchanged. */
    method EngineEvent(name: string, data: Payload, hasModeler: bool, save: SaveOutcome)
      requires ShowsBpmnEditor()
      modifies this
      ensures sent == old(sent) + BpmnEditor.HandleEvent(name, data, BpmnEditorActive(), hasModeler, save)
      ensures xml == old(xml) && modelerTabDisabled == old(modelerTabDisabled) && xmlTabDisabled == old(xmlTabDisabled)
      ensures mode == old(mode) && modelerRef == old(modelerRef)
    {
      sent := sent + BpmnEditor.HandleEvent(name, data, BpmnEditorActive(), hasModeler, save);
    }

    /** Nothing is rendered while the XML is empty. */
    predicate Renders()
      reads this
    {
      xml != ""
    }

    predicate ShowsBpmnEditor()
      reads this
    {
      Renders() && !modelerTabDisabled
    }

    predicate ShowsXmlEditor()
      reads this
    {
      Renders() && !xmlTabDisabled
    }

    /** The mode toggle appears only when both tabs are enabled. */
    predicate ShowsToggle()
      reads this
    {
      Renders() && !xmlTabDisabled && !modelerTabDisabled
    }

    lemma ToggleNeedsBothEditors()
      ensures ShowsToggle() <==> ShowsBpmnEditor() && ShowsXmlEditor()
    {
    }
  }
}
