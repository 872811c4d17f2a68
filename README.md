# camunda-web-modeler: a Dafny model of the event and view core

The web modeler embeds the bpmn-js and dmn-js diagram engines and a Monaco XML editor in React
components. It tells the host application what happens through a single `onEvent` callback.
This project models the sequential core beneath the JSX and proves properties of it:

- **Listener registry** (`GlobalEventListener`). This is the list of callbacks that taps an
  engine's event bus. `On` adds a callback only when it is absent. `Off` removes it. The patched
  `fire` hands each event to every listener in order, then to the bus's own `fire`.
- **Event vocabulary** (`Events` and one module per file under `src/events`). Events are a
  datatype of source, name and data. Each kind has a constructor and a guard. `EventKinds`
  relates the six guards to each other.
- **Event normalisers** (`BpmnEditor.HandleEvent` and `DmnEditor.HandleEvent`). Each turns one
  engine event into the ordered sequence of events handed to `onEvent`. Fixed name tables decide
  that sequence.
- **Import de-duplication and reporting** (`ImportXml` in both editors, with
  `EditorCommon.ImportNotifications`).
- **Tab and view state.** The `BpmnModeler` and `DmnModeler` classes hold the component state
  that `changeMode`, the tab-option effect and `localOnEvent` update. The `XmlEditor` class holds
  the latch that mounts the Monaco editor the first time it becomes active.

The engines are not modelled. Their operations (`save`, `saveXML`/export, `import`, `open`, the
keyboard) appear as given outcomes: `SaveOutcome`, `Option<string>` for an export that succeeds
or throws, `ImportOutcome`, and `KeyboardCall`. An awaited call is one step in sequence.

Three places where the code is followed although it reads surprisingly:

- The modelers' `modelerRef` is never assigned. `saveFile` therefore emits nothing and
  `changeMode` never calls `open` in the running component. The model keeps the reference as an
  optional field that the constructor leaves unset, and states every method for both values.
- The DMN modeler's `activeView` becomes the view record the engine reported once a
  "views.changed" event arrives, not its id. The comparisons with `"bpmn"` and `"xml"` and the
  toggle highlight then match nothing. The model follows this (`DmnModeler.ActiveView.ViewObject`,
  `DmnModeler.ReportedViewHighlightsNothing`).
- The option documentation of the DMN split view gives 95% as the default minimum and 5% as the
  default maximum. The code uses max 95% and min 5%, and the model follows the code.

## Model

| member | source | states |
|---|---|---|
| Events.ReasonName | src/events/modeler/ContentSavedEvent.ts:5-19 | a content-saved reason is one of "diagram.changed", "xml.changed" or "view.changed" |
| Events.SeverityName | src/events/modeler/NotificationEvent.ts:5-9 | a severity is one of "success", "info", "warning" or "error" |
| Events.WellFormedModelerName | src/events/Events.ts:1-16 | a well-typed modeler event carries one of the five modeler event names |
| Events.ModelerNamesDistinct | src/events/Events.ts:1-6 | the five modeler event names are pairwise distinct |
| ContentSavedEvent.CreateContentSavedEvent | src/events/modeler/ContentSavedEvent.ts:42-54 | the created event passes its guard, is well typed, and holds exactly the given xml, svg and reason |
| ContentSavedEvent.GuardedIsCreated | src/events/modeler/ContentSavedEvent.ts:56-58 | a well-typed event the guard accepts is the one the constructor builds from its data |
| ContentSavedEvent.CreateInjective | src/events/modeler/ContentSavedEvent.ts:42-54 | different xml, svg or reason give different events |
| NotificationEvent.CreateNotificationEvent | src/events/modeler/NotificationEvent.ts:27-37 | the created event passes its guard, is well typed, and holds exactly the given message and severity |
| NotificationEvent.GuardedIsCreated | src/events/modeler/NotificationEvent.ts:39-41 | a well-typed event the guard accepts is the constructor's event for its data |
| DmnViewsChangedEvent.CreateDmnViewsChangedEvent | src/events/modeler/DmnViewsChangedEvent.ts:21-31 | the created event passes its guard, is well typed, and holds exactly the given views, in order, and active view |
| DmnViewsChangedEvent.GuardedIsCreated | src/events/modeler/DmnViewsChangedEvent.ts:33-35 | a well-typed event the guard accepts is the constructor's event for its data |
| UIUpdateRequiredEvent.CreateUIUpdateRequiredEvent | src/events/modeler/UIUpdateRequiredEvent.ts:17-21 | the created event passes its guard, is well typed, and its data is exactly `{ isActive }` |
| UIUpdateRequiredEvent.GuardedIsCreated | src/events/modeler/UIUpdateRequiredEvent.ts:23-25 | a well-typed event the guard accepts is the constructor's event for its data |
| PropertiesPanelResizedEvent.CreatePropertiesPanelResizedEvent | src/events/modeler/PropertiesPanelResizedEvent.ts:15-21 | the created event passes its guard, is well typed, and its data is exactly `{ width }` |
| PropertiesPanelResizedEvent.GuardedIsCreated | src/events/modeler/PropertiesPanelResizedEvent.ts:23-27 | a well-typed event the guard accepts is the constructor's event for its data |
| BpmnIoEvents.CreateBpmnIoEvent | src/events/bpmnio/BpmnIoEvents.ts:4-8 | the created event has source bpmnio and keeps the name and data unchanged |
| BpmnIoEvents.GuardedIsCreated | src/events/bpmnio/BpmnIoEvents.ts:10-12 | the guard depends on the source only: every well-typed bpmnio event is a created one, whatever its name |
| EventKinds.GuardsExclusive | src/events/modeler/ContentSavedEvent.ts:56-58 | no event passes two of the six guards, since they test source and distinct names |
| EventKinds.WellFormedPassesOneGuard | src/events/Events.ts:12-16 | every well-typed event passes exactly one guard |
| EventKinds.BpmnIoPassesNoModelerGuard | src/events/bpmnio/BpmnIoEvents.ts:4-12 | a bpmnio event passes no modeler guard, even when it carries a modeler event's name |
| GlobalEventListener.Without | src/bpmnio/GlobalEventListenerUtil.ts:37-39 | `off`'s filter keeps exactly the callbacks other than the removed one, each with its multiplicity |
| GlobalEventListener.WithoutConcat | src/bpmnio/GlobalEventListenerUtil.ts:38 | the filter distributes over concatenation, so the other listeners keep their relative order |
| GlobalEventListener.WithoutAbsent | src/bpmnio/GlobalEventListenerUtil.ts:38 | `off` of an unregistered callback leaves the list unchanged |
| GlobalEventListener.WithoutNoDuplicates | src/bpmnio/GlobalEventListenerUtil.ts:37-39 | `off` keeps the list free of duplicates |
| GlobalEventListener.Add | src/bpmnio/GlobalEventListenerUtil.ts:26-30 | `on(cb)` leaves the list unchanged when `cb` is registered and otherwise appends it at the end; either way `cb` is registered and no duplicate appears |
| GlobalEventListener.AddIdempotent | src/bpmnio/GlobalEventListenerUtil.ts:27 | `on` twice is `on` once |
| GlobalEventListener.AddThenWithout | src/bpmnio/GlobalEventListenerUtil.ts:26-39 | `on(cb)` then `off(cb)` restores a list that did not hold `cb` |
| GlobalEventListener.GlobalEventListenerUtil.constructor | src/bpmnio/GlobalEventListenerUtil.ts:8-19 | the registry starts empty and free of duplicates |
| GlobalEventListener.GlobalEventListenerUtil.On | src/bpmnio/GlobalEventListenerUtil.ts:26-30 | the list becomes `Add(old list, cb)` and stays free of duplicates |
| GlobalEventListener.GlobalEventListenerUtil.Off | src/bpmnio/GlobalEventListenerUtil.ts:37-39 | the list becomes `Without(old list, cb)` and stays free of duplicates |
| GlobalEventListener.GlobalEventListenerUtil.Fire | src/bpmnio/GlobalEventListenerUtil.ts:12-18 | each registered listener is called once, in list order, with the unchanged event and data, then the original `fire`; its result is returned unchanged |
| EditorCommon.OrDefault | src/editor/BpmnEditor.tsx:251-252 | `value \|\| default`: a present non-empty value wins, an absent or empty one gives the default |
| EditorCommon.NatToString | src/editor/BpmnEditor.tsx:308 | a warning count renders as a non-empty string of decimal digits |
| EditorCommon.NatToStringValue | src/editor/BpmnEditor.tsx:308 | the rendered digits denote the count |
| EditorCommon.NatToStringInjective | src/editor/BpmnEditor.tsx:308 | different counts render differently |
| EditorCommon.WarningMessage | src/editor/BpmnEditor.tsx:308 | the message starts with "Imported with ", then the decimal count, and ends with ". See console for details." |
| EditorCommon.WarningMessageSingularIff | src/editor/BpmnEditor.tsx:308 | the message says "warning" exactly when the count is 1 and "warnings" otherwise |
| EditorCommon.WarningMessageInjective | src/editor/BpmnEditor.tsx:308 | different warning counts give different messages |
| EditorCommon.ImportNotifications | src/editor/BpmnEditor.tsx:301-319 | after an import: nothing for 0 warnings, one warning notification with the pluralised message for N > 0, one fixed error notification on failure |
| EditorCommon.WarningIsNotError | src/editor/BpmnEditor.tsx:307-318 | a warning message never equals the import-error message |
| BpmnEditor.SavingEventsRefresh | src/editor/BpmnEditor.tsx:23-44 | both content-saving events are also UI-refresh events; "elementTemplates.errors" is in neither table |
| BpmnEditor.HandleEvent | src/editor/BpmnEditor.tsx:208-214 | the raw bpmnio event comes first, every later event is a modeler event, and an inactive editor emits only the raw event |
| BpmnEditor.HandleEventCounts | src/editor/BpmnEditor.tsx:216-243 | one raw event; an error notification iff active and "elementTemplates.errors"; a UI refresh iff active and listed in the 12-name table; a content save iff active, listed in the save table, with an engine, and the save succeeds |
| BpmnEditor.HandleEventContents | src/editor/BpmnEditor.tsx:216-243 | the notification is the fixed template error, the UI refresh carries `isActive = true`, and the saved event carries the saved xml, svg and "diagram.changed" |
| BpmnEditor.HandleEventOrder | src/editor/BpmnEditor.tsx:210-243 | within one engine event the order is raw, notification, UI refresh, content saved, each at most once, and no event of any other kind appears |
| BpmnEditor.UnlistedIsOnlyForwarded | src/editor/BpmnEditor.tsx:216-243 | a name in no table is only passed through |
| BpmnEditor.ImportXml | src/editor/BpmnEditor.tsx:284-321 | the import runs iff there is an engine and its export is not the new XML (a failed export falls through); only then do its notifications follow |
| BpmnEditor.ReimportIsSkipped | src/editor/BpmnEditor.tsx:292-295 | importing the XML the engine already exports neither imports nor emits |
| BpmnEditor.ModelerContainer | src/editor/BpmnEditor.tsx:251 | the container is the given id when non-empty, and "#bpmnview" when it is absent or empty |
| BpmnEditor.PropertiesPanelContainer | src/editor/BpmnEditor.tsx:252 | no panel container iff the panel is hidden; otherwise the given id when non-empty, and "#bpmnprop" when it is absent or empty |
| BpmnEditor.OnActiveChanged | src/editor/BpmnEditor.tsx:346-350 | a change of `active` reports a UI refresh with the new value, binds the keyboard iff active and unbinds iff inactive, when an engine exists |
| BpmnEditor.ActiveEffectEvents | src/editor/BpmnEditor.tsx:346-350 | the effect sends one UI refresh with the new `active` when the editor mounts or its `active` changes, and nothing otherwise or on unmount |
| DmnEditor.TablesOverlap | src/editor/DmnEditor.tsx:24-42 | both content-saving events and "views.changed" are also UI-refresh events |
| DmnEditor.HandleEvent | src/editor/DmnEditor.tsx:201-215 | the raw event comes first, every later one is a modeler event, an inactive editor emits only the raw event and keeps its view, and the view changes only for "views.changed" while active, to the reported one |
| DmnEditor.ViewsChangedWhileActive | src/editor/DmnEditor.tsx:209-222 | an active editor's "views.changed" emits raw, then `dmn.views.changed(views, activeView)`, then a UI refresh, and adopts the reported view |
| DmnEditor.CountParts | src/editor/DmnEditor.tsx:201-237 | counting a kind over an emission adds up the counts of its raw, views, UI and saved parts |
| DmnEditor.HandleEventCounts | src/editor/DmnEditor.tsx:209-236 | one raw event; a views event iff active with a views payload; a UI refresh iff active and listed in the 9-name table; a content save iff active, listed, with an engine, and the save succeeds |
| DmnEditor.HandleEventContents | src/editor/DmnEditor.tsx:209-236 | the views event carries the reported views and active view, the UI refresh `isActive = true`, and the saved event the saved xml, no svg and "diagram.changed" |
| DmnEditor.HandleEventOrder | src/editor/DmnEditor.tsx:203-236 | within one engine event the order is raw, views, UI refresh, content saved, each at most once, and no event of any other kind appears |
| DmnEditor.ImportXml | src/editor/DmnEditor.tsx:272-308 | the import runs iff there is an engine and its export is not the new XML; only then do its notifications follow |
| DmnEditor.ModelerContainer | src/editor/DmnEditor.tsx:243 | the container is the given id when non-empty, and "#dmnview" when it is absent or empty |
| DmnEditor.PropertiesPanelContainer | src/editor/DmnEditor.tsx:244 | no panel container iff hidden; otherwise the given id when non-empty, and "#dmnprop" when it is absent or empty |
| DmnEditor.ModelerPaneSize | src/editor/DmnEditor.tsx:383-385 | each size is the option when present and non-empty, else 75% initial, 95% max, 5% min |
| DmnEditor.PropertiesPaneSize | src/editor/DmnEditor.tsx:389-391 | each size is the option when present and non-empty, else 25% initial, 95% max, 5% min |
| DmnEditor.OnActiveChanged | src/editor/DmnEditor.tsx:329-348 | reports a UI refresh; it binds the keyboard at once iff active with an engine that has an active viewer, later iff active with an engine that has none, and its cleanup unbinds iff active with an engine; it never unbinds at once |
| DmnEditor.EffectEvents | src/editor/DmnEditor.tsx:329-348 | the effect sends one UI refresh with the current `active` when the editor mounts or its `active` or `activeView` changes, and nothing otherwise or on unmount |
| XmlEditor.OnXmlChanged | src/editor/XmlEditor.tsx:77-81 | a text change is forwarded unchanged iff the editor is active |
| XmlEditor.ShownIffEverActive | src/editor/XmlEditor.tsx:75-91 | the shown latch is set exactly when the editor has been active at some point |
| XmlEditor.ShownNeverReset | src/editor/XmlEditor.tsx:87-91 | once set, the latch stays set |
| XmlEditor.RenderFor | src/editor/XmlEditor.tsx:109-114 | nothing is rendered until the latch is set; afterwards the editor is mounted, hidden exactly while inactive |
| XmlEditor.MountedOnceShown | src/editor/XmlEditor.tsx:87-114 | after the editor was once active it stays mounted, hidden exactly while inactive |
| XmlEditor.XmlEditor.constructor | src/editor/XmlEditor.tsx:75-91 | on mount the latch equals the initial `active` |
| XmlEditor.XmlEditor.SetActive | src/editor/XmlEditor.tsx:87-91 | a new `active` sets the latch if true and never clears it |
| BpmnModeler.ToggleOptionsCoverModes | src/BpmnModeler.tsx:170-188 | the toggle has two buttons, one selecting each mode |
| BpmnModeler.ModeAfterTabOptions | src/BpmnModeler.tsx:116-120 | the mode becomes "xml" when only the XML tab is enabled and is otherwise kept |
| BpmnModeler.BpmnModeler.constructor | src/BpmnModeler.tsx:112-120 | the mode starts as "bpmn" and the tab-options effect runs once; the engine reference is unset; the host gets only the mounted BPMN editor's UI refresh |
| BpmnModeler.BpmnModeler.EditorActivity | src/BpmnModeler.tsx:143-152 | the BPMN editor is mounted iff the XML is non-empty and its tab is enabled, and then its `active` prop is true iff the mode is "bpmn" |
| BpmnModeler.BpmnModeler.SetTabOptions | src/BpmnModeler.tsx:116-120 | new tab options may switch to "xml" and never switch back; the host gets the UI refresh of a BPMN editor they mount or whose `active` they change |
| BpmnModeler.BpmnModeler.SaveFile | src/BpmnModeler.tsx:122-127 | emits `content.saved(xml, svg, reason)` only with an engine whose save succeeds; rejects exactly when the save does |
| BpmnModeler.BpmnModeler.ChangeMode | src/BpmnModeler.tsx:129-134 | a null or current mode changes nothing; otherwise it saves with "view.changed" and sets the mode unless the save rejected, after which a mounted BPMN editor sends its UI refresh for the new `active` |
| BpmnModeler.BpmnModeler.AtMostOneActive | src/BpmnModeler.tsx:146-157 | exactly one of the two editors is active |
| BpmnModeler.BpmnModeler.XmlEdited | src/BpmnModeler.tsx:154-164 | an edit reaches the host as `content.saved(value, undefined, "xml.changed")` iff the XML editor is active |
| BpmnModeler.BpmnModeler.EngineEvent | src/BpmnModeler.tsx:143-147 | the BPMN editor's emission, with `active` iff the mode is "bpmn", goes to the host unchanged |
| BpmnModeler.BpmnModeler.ToggleNeedsBothEditors | src/BpmnModeler.tsx:136-167 | the toggle is shown iff both editors are shown, which needs a non-empty XML |
| DmnModeler.Label | src/DmnModeler.tsx:198-200 | a view's title is its name when non-empty and "Unnamed" when the name is empty |
| DmnModeler.ToggleOptionsCoverViews | src/DmnModeler.tsx:186-213 | one button per view, in order, with its id, type icon and a non-empty title, followed by the "xml" button |
| DmnModeler.ToggleActive | src/DmnModeler.tsx:215 | the toggle's `active` is the chosen id, "" when unset, and matches no id exactly when the active view is a view record |
| DmnModeler.ChosenIsHighlighted | src/DmnModeler.tsx:215 | after choosing a button, exactly the buttons with its id are highlighted |
| DmnModeler.ReportedViewHighlightsNothing | src/DmnModeler.tsx:144-215 | after a reported view record, no button is highlighted |
| DmnModeler.ViewAfter | src/DmnModeler.tsx:144-148 | a bpmnio "views.changed" event with data sets the active view to the reported record (unset when none is reported); every other event keeps it |
| DmnModeler.ViewsAfter | src/DmnModeler.tsx:144-148 | a bpmnio "views.changed" event with data replaces the views by the reported ones; every other event keeps them |
| DmnModeler.ModelerEventsKeepViews | src/DmnModeler.tsx:145 | modeler events never change the view state |
| DmnModeler.DmnModeler.constructor | src/DmnModeler.tsx:113-122 | no views; the active view starts unset, or "xml" when only the XML tab is enabled; the host gets only the mounted DMN editor's UI refresh |
| DmnModeler.DmnModeler.EditorDeps | src/DmnModeler.tsx:159-167 | the DMN editor is mounted iff the XML is non-empty and its tab is enabled, and then its `active` prop is true iff the active view is the id "bpmn" |
| DmnModeler.DmnModeler.SetTabOptions | src/DmnModeler.tsx:118-122 | new tab options may select "xml" and otherwise keep the active view; a DMN editor they unmount or mount starts without a view, and the host gets the UI refresh of one they mount or whose `active` they change |
| DmnModeler.DmnModeler.SaveFile | src/DmnModeler.tsx:124-130 | emits `content.saved(xml, undefined, reason)` only with an engine whose save succeeds; rejects exactly when the save does |
| DmnModeler.DmnModeler.ChangeMode | src/DmnModeler.tsx:132-142 | a null or current value changes nothing; otherwise save with "view.changed", then, unless that rejected, set the view (a mounted DMN editor then sends its UI refresh if its `active` changed) and open it in the engine iff it is not "xml" |
| DmnModeler.DmnModeler.LocalOnEvent | src/DmnModeler.tsx:144-150 | adopts the reported views and active view for a bpmnio "views.changed" event with data, and forwards every event unchanged |
| DmnModeler.DmnModeler.AtMostOneActive | src/DmnModeler.tsx:162-173 | the DMN and XML editors are never both active |
| DmnModeler.DmnModeler.EngineEvent | src/DmnModeler.tsx:159-167 | the DMN editor's emission, with `active` iff the active view is the id "bpmn", passes through `localOnEvent` in order; only the raw event can move the view state; the editor's effect then sends its UI refresh if its `active` or view changed |
| DmnModeler.DmnModeler.XmlEdited | src/DmnModeler.tsx:170-180 | an edit reaches the host as `content.saved(value, undefined, "xml.changed")` iff the XML editor is active |
| DmnModeler.DmnModeler.ToggleFollowsEditor | src/DmnModeler.tsx:183 | the toggle is shown exactly with the DMN editor, whatever the XML tab |
| DmnModeler.DmnModeler.Options | src/DmnModeler.tsx:183-213 | the toggle has one button more than there are views |

## Left out

- Asynchrony and React scheduling are not modelled: `await`, effect ordering, `useCallback` identity, re-renders and the 1000 ms keyboard fallback timer. Each awaited call is one step, and the delayed bind is `KeyboardEffect.deferred`.
- DmnModeler.DmnModeler.EngineEvent: the UI refresh of the DMN editor's keyboard effect is placed after the whole emission; when React flushes that effect relative to the later `onEvent` calls of the same `handleEvent` is not modelled.
- The editors' effects on `active` also re-run when the host passes a new `onEvent` callback; the modeler classes take the callback as fixed. The keyboard calls of those effects are stated by `BpmnEditor.OnActiveChanged` and `DmnEditor.OnActiveChanged` but not recorded by the modeler classes.
- The engine wrappers (src/bpmnio/bpmn/CustomBpmnJsModeler.ts, src/bpmnio/dmn/CustomDmnJsModeler.ts) are not part of this model. Their save, export, import, open and keyboard operations are given outcomes. Mounting and destroying an engine, `initializeCount`, the external `refs`, registering `handleEvent` with the registry, and importing element templates are left out with them.
- Rendering, styles and layout are not modelled: JSX, class names, src/components/*, the BPMN split pane's fixed sizes, and the `parseInt` of resize widths that produces "properties.panel.resized". JavaScript's number parsing is not modelled; widths are unbounded integers without NaN.
- The Monaco options merge is a library call and is left out.
- Console logging is left out. XML and SVG contents are opaque strings.
- A DMN view's `element` engine object is not part of `DmnView`. View records therefore compare by value, whereas React compares the DMN editor's `activeView` effect dependency by identity: where the engine reports an equal but new view record, `DmnEditor.EffectEvents` shows no UI refresh although the source emits one.
- DmnEditor.HandleEvent: a "views.changed" payload that is an object without `views` and `activeView` is excluded by the precondition `ViewsChangedPayload`. An undefined payload is modelled: reading it throws, so only the raw event is emitted.
- DmnModeler.DmnModeler.LocalOnEvent: excludes the same malformed payload (`Readable`), for which the component would go on to render an undefined views list.
- GlobalEventListener.GlobalEventListenerUtil.Fire: the listener calls are recorded but not run. A listener that registers or removes listeners during `fire`, or that throws, is not modelled. The snapshot taken before the loop stands for `forEach`.
- BpmnModeler.BpmnModeler.EngineEvent and DmnModeler.DmnModeler.EngineEvent: the editor's `hasModeler` and save outcome are parameters rather than the editor's own engine state.
- Callback identity is modelled by an id. Two JavaScript closures are the same listener iff their ids agree.
