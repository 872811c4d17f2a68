/**
 * What the BPMN and DMN editors share: the abstract results of the engine operations they
 * await, the "value || default" rule for optional string props, and the notifications that
 * report an import (src/editor/BpmnEditor.tsx and src/editor/DmnEditor.tsx).
 */
module EditorCommon {
  import opened Wrappers
  import opened Events
  import opened NotificationEvent

  /** An engine instance (a bpmn-js or dmn-js modeler) held by a React ref. */
  datatype Engine = Engine(instance: nat)

  /** The outcome of the engine's `save()`: the XML (and, for bpmn-js, the SVG) or a rejection. */
  datatype SaveOutcome = Saved(xml: string, svg: Option<string>) | SaveRejected

  /** The outcome of the engine's `importXML`/`import`: the number of warnings or a rejection. */
  datatype ImportOutcome = ImportedWith(warnings: nat) | ImportRejected

  /** What an editor's `importXml` does: whether it calls the engine's import, and what it emits. */
  datatype ImportReport = ImportReport(importCalled: bool, events: seq<Event>)

  /** The keyboard call an effect makes on the engine. */
  datatype KeyboardCall = Bind | Unbind | NoCall

  /** `value || default` for an optional string prop: an absent or empty value gives the default. */
  function OrDefault(value: Option<string>, default: string): (r: string)
    ensures value.Some? && value.value != "" ==> r == value.value
    ensures value.None? || value.value == "" ==> r == default
    ensures r != "" || default == ""
  {
    if value.Some? && value.value != "" then value.value else default
  }

  // --- decimal rendering of the warning count in a template literal ---

  predicate IsDigits(s: string) {
    forall i :: 0 <= i < |s| ==> '0' <= s[i] <= '9'
  }

  function Digit(d: nat): (c: char)
    requires d < 10
    ensures '0' <= c <= '9' && c as int - '0' as int == d
  {
    ('0' as int + d) as char
  }

  /** The decimal digits of `n`, as `${n}` renders a non-negative integer. */
  function NatToString(n: nat): (s: string)
    ensures |s| >= 1 && IsDigits(s)
  {
    if n < 10 then [Digit(n)] else NatToString(n / 10) + [Digit(n % 10)]
  }

  /** The number a string of decimal digits denotes. */
  function DigitsValue(s: string): nat
    requires IsDigits(s)
  {
    if s == [] then 0 else DigitsValue(s[..|s| - 1]) * 10 + (s[|s| - 1] as int - '0' as int)
  }

  /** Reading back the rendered digits gives the number. */
  lemma {:induction false} NatToStringValue(n: nat)
    ensures DigitsValue(NatToString(n)) == n
  {
    var s := NatToString(n);
    if n < 10 {
      assert s[..|s| - 1] == [];
    } else {
      NatToStringValue(n / 10);
      assert s[..|s| - 1] == NatToString(n / 10);
    }
  }

  lemma NatToStringInjective(a: nat, b: nat)
    requires NatToString(a) == NatToString(b)
    ensures a == b
  {
    NatToStringValue(a);
    NatToStringValue(b);
  }

  // --- import notifications ---

  const WarningPrefix: string := "Imported with "
  const WarningSuffix: string := ". See console for details."
  const ImportErrorHead: string := "Could not import changed XML. Is it invalid?"
  const ImportErrorMessage: string := ImportErrorHead + " See console for details."

  /** "Imported with N warning(s). See console for details.", singular for one warning. */
  function WarningMessage(count: nat): (m: string)
    ensures |WarningPrefix| <= |m| && m[..|WarningPrefix|] == WarningPrefix
    ensures EndsWith(m, WarningSuffix)
    ensures |WarningPrefix| + |NatToString(count)| <= |m|
    ensures m[|WarningPrefix|..|WarningPrefix| + |NatToString(count)|] == NatToString(count)
  {
    WarningPrefix + NatToString(count) + " warning" + (if count == 1 then "" else "s") + WarningSuffix
  }

  predicate EndsWith(s: string, tail: string) {
    |tail| <= |s| && s[|s| - |tail|..] == tail
  }

  /** The message uses the singular form exactly when there is one warning. */
  lemma WarningMessageSingularIff(count: nat)
    ensures EndsWith(WarningMessage(count), " warning" + WarningSuffix) <==> count == 1
    ensures EndsWith(WarningMessage(count), " warnings" + WarningSuffix) <==> count != 1
  {
    var m := WarningMessage(count);
    var d := NatToString(count);
    var singular := " warning" + WarningSuffix;
    var plural := " warnings" + WarningSuffix;
    if count == 1 {
      assert m == WarningPrefix + d + singular;
      assert m[|m| - |singular|..] == singular;
      assert m[|m| - |plural|] == d[0];
    } else {
      assert m == WarningPrefix + d + plural;
      assert m[|m| - |plural|..] == plural;
      assert m[|m| - |singular|] == 'w';
    }
  }

  /** Different warning counts give different messages. */
  lemma WarningMessageInjective(a: nat, b: nat)
    requires WarningMessage(a) == WarningMessage(b)
    ensures a == b
  {
    var da, db := NatToString(a), NatToString(b);
    var ma, mb := WarningMessage(a), WarningMessage(b);
    var p := |WarningPrefix|;
    if |da| == |db| {
      assert ma[p..p + |da|] == da;
      assert mb[p..p + |db|] == db;
      NatToStringInjective(a, b);
    }
  }

  /** What an editor emits after it called the engine's import. */
  function ImportNotifications(outcome: ImportOutcome): (events: seq<Event>)
    ensures |events| <= 1
    ensures events == [] <==> outcome == ImportedWith(0)
    ensures forall e :: e in events ==> IsNotificationEvent(e) && WellFormed(e)
    ensures outcome.ImportedWith? && outcome.warnings > 0 ==>
      events == [CreateNotificationEvent(WarningMessage(outcome.warnings), Warning)]
    ensures outcome.ImportRejected? ==> events == [CreateNotificationEvent(ImportErrorMessage, Error)]
  {
    match outcome
    case ImportedWith(count) =>
      if count > 0 then [CreateNotificationEvent(WarningMessage(count), Warning)] else []
    case ImportRejected =>
      [CreateNotificationEvent(ImportErrorMessage, Error)]
  }

  /** A warning report and an error report are never confused. */
  lemma WarningIsNotError(count: nat)
    ensures WarningMessage(count) != ImportErrorMessage
  {
    var m := WarningMessage(count);
    assert m[0] == 'I';
    assert ImportErrorMessage[0] == ImportErrorHead[0] == 'C';
  }
}
