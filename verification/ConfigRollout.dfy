/** How a rendered config reaches the running bot: the config Secret is rewritten on every reconcile, the StatefulSet's
    pod template follows spec.updateStrategy for the config hash and the spec for everything else, the pods are replaced
    whenever the template changes, and ConfigDrift reports the gap between rendered config and template. */
module ConfigRollout {
  import opened Wrappers

  /** The pod template: the config-hash annotation, "" when it is missing, and all the rest (image, arguments, Strategy
      name, spec.app). */
  datatype Template = Template(hash: string, rest: string)

  datatype World = World(
    template: Option<Template>,        // of the StatefulSet, if it exists
    past: seq<Option<Template>>,       // every template a lagging cache may still serve
    secret: Option<string>,            // hash of what the config Secret and strategy ConfigMap hold
    pods: Option<string>,              // hash of what the running pods loaded when they started
    drift: Option<bool>,               // the stored ConfigDrift condition
    applied: string)                   // status.appliedConfigHash

  datatype Read = Shows(template: Option<Template>) | ReadError

  /** Where a reconcile stops. */
  datatype Stop = BeforeSecret | BeforeStatefulSet | AfterStatefulSet | StatusNotPatched | Completed

  datatype Event =
    | Reconcile(auto: bool, rendered: string, rest: string, read: Read, stop: Stop)
    | PodsRestarted                       // kubectl rollout restart, an eviction, a crash: the hash annotation stays
    | StatefulSetDeleted

  function Initial(): World {
    World(None, [None], None, None, None, "")
  }

  /** statefulSetTemplateHash. */
  function TemplateHash(auto: bool, read: Read, rendered: string): Option<string> {
    if auto then Some(rendered)
    else
      match read
      case ReadError => None
      case Shows(t) => Some(if t.Some? && t.value.hash != "" then t.value.hash else rendered)
  }

  /** Applying a template: the pods are replaced exactly when anything in it changed. */
  function ApplyTemplate(w: World, t: Template): World {
    w.(template := Some(t), past := w.past + [Some(t)], pods := if w.template == Some(t) then w.pods else w.secret)
  }

  function Reconciled(w: World, auto: bool, rendered: string, rest: string, read: Read, stop: Stop): World {
    if stop == BeforeSecret then w
    else
      var w1 := w.(secret := Some(rendered));
      var hash := TemplateHash(auto, read, rendered);
      if stop == BeforeStatefulSet || hash.None? then w1
      else
        var w2 := ApplyTemplate(w1, Template(hash.value, rest));
        if stop != Completed then w2 else w2.(drift := Some(hash.value != rendered), applied := rendered)
  }

  /** A read shows some template the StatefulSet had. */
  predicate Possible(w: World, e: Event) {
    e.Reconcile? && e.read.Shows? ==> e.read.template in w.past
  }

  function Next(w: World, e: Event): World {
    match e
    case Reconcile(auto, rendered, rest, read, stop) =>
      if Possible(w, e) then Reconciled(w, auto, rendered, rest, read, stop) else w
    case PodsRestarted => if w.template.Some? then w.(pods := w.secret) else w
    case StatefulSetDeleted => w.(template := None, past := w.past + [None], pods := None)
  }

  function Run(w: World, events: seq<Event>): World {
    if events == [] then w else Next(Run(w, events[..|events| - 1]), events[|events| - 1])
  }

  /** One possible reconcile, by how far it gets: past the Secret it holds what was rendered; past the StatefulSet,
      which under Manual needs a good read of it, the template has the rest as asked and the rendered hash, or under
      Manual the one it was shown, unless that is missing; the pods are replaced exactly when that changes the template;
      and only a completed one reports, drift exactly when the template's hash is not the rendered one. */
  lemma OneReconcileExactly(w: World, e: Event)
    requires e.Reconcile? && Possible(w, e)
    ensures
      var w' := Next(w, e);
      var applied := e.stop in {AfterStatefulSet, StatusNotPatched, Completed} && (e.auto || e.read.Shows?);
      var kept := !e.auto && e.read.Shows? && e.read.template.Some? && e.read.template.value.hash != "";
      && w'.secret == (if e.stop == BeforeSecret then w.secret else Some(e.rendered))
      && w'.template == (if !applied then w.template
                         else Some(Template(if kept then e.read.template.value.hash else e.rendered, e.rest)))
      && w'.pods == (if w'.template == w.template then w.pods else Some(e.rendered))
      && w'.drift == (if applied && e.stop == Completed then Some(w'.template.value.hash != e.rendered) else w.drift)
      && w'.applied == (if applied && e.stop == Completed then e.rendered else w.applied)
  {}

  // ---------- Manual mode and the config hash ----------

  predicate GetsThere(e: Event) {
    e.Reconcile? && e.stop !in {BeforeSecret, BeforeStatefulSet} && (e.auto || e.read.Shows?)
  }

  predicate Manual(e: Event) {
    !e.StatefulSetDeleted? && (e.Reconcile? ==> !e.auto)
  }

  predicate ManualRun(w: World, events: seq<Event>) {
    events == [] ||
    (var before, e := events[..|events| - 1], events[|events| - 1];
     ManualRun(w, before) && Manual(e) && Possible(Run(w, before), e))
  }

  /** What a Manual reconcile was shown makes it write the hash h back. */
  predicate WritesBack(e: Event, h: string) {
    GetsThere(e) && !e.auto ==>
      if e.read.template.Some? && e.read.template.value.hash != "" then e.read.template.value.hash == h
      else e.rendered == h
  }

  predicate HasHash(w: World, h: string) {
    w.template.Some? && w.template.value.hash == h
  }

  /** At every moment of the run. */
  predicate HashStays(w: World, events: seq<Event>, h: string) {
    HasHash(Run(w, events), h) && (events == [] || HashStays(w, events[..|events| - 1], h))
  }

  lemma ManualStep(w: World, e: Event, h: string)
    requires HasHash(w, h) && Manual(e) && Possible(w, e)
    ensures Next(w, e).template.Some? && (HasHash(Next(w, e), h) <==> WritesBack(e, h))
  {}

  /** Over any run of Manual reconciles, complete or cut short anywhere and with any lagging reads, the template's hash
      stays what it was at every moment exactly when each reconcile that got as far as the StatefulSet had been shown
      that hash, or had been shown none and happened to render it. */
  lemma {:induction false} ManualKeepsHashExactly(w: World, events: seq<Event>, h: string)
    requires HasHash(w, h) && ManualRun(w, events)
    ensures HashStays(w, events, h) <==> forall e :: e in events ==> WritesBack(e, h)
  {
    if events != [] {
      var before, e := events[..|events| - 1], events[|events| - 1];
      ManualKeepsHashExactly(w, before, h);
      assert events == before + [e];
      if HashStays(w, before, h) { ManualStep(Run(w, before), e, h); }
    }
  }

  /** A Manual run whose reads of the StatefulSet are current. */
  predicate CurrentManualRun(w: World, events: seq<Event>) {
    events == [] ||
    (var before, e := events[..|events| - 1], events[|events| - 1];
     && CurrentManualRun(w, before) && Manual(e)
     && (e.Reconcile? && e.read.Shows? ==> e.read.template == Run(w, before).template))
  }

  /** So with current reads a non-empty hash never changes, whatever is rendered. */
  lemma {:induction false} ManualKeepsTemplate(w: World, events: seq<Event>, h: string)
    requires HasHash(w, h) && h != "" && w.template in w.past && CurrentManualRun(w, events)
    ensures HashStays(w, events, h) && Run(w, events).template in Run(w, events).past
  {
    if events != [] {
      var before, e := events[..|events| - 1], events[|events| - 1];
      ManualKeepsTemplate(w, before, h);
      ManualStep(Run(w, before), e, h);
    }
  }

  // ---------- Manual mode and the running pods ----------

  /** A reconcile that gets as far as the StatefulSet and brings other pod fields than it has. */
  predicate ChangesRest(w: World, e: Event) {
    GetsThere(e) && w.template.Some? && e.rest != w.template.value.rest
  }

  /** At every moment of the run. */
  predicate PodsStay(w: World, events: seq<Event>, pods: Option<string>) {
    Run(w, events).pods == pods && (events == [] || PodsStay(w, events[..|events| - 1], pods))
  }

  /** Every reconcile of the run that changed other pod fields rendered what the pods already run. */
  predicate OnlyOntoSame(w: World, events: seq<Event>, pods: Option<string>) {
    events == [] ||
    (var before, e := events[..|events| - 1], events[|events| - 1];
     OnlyOntoSame(w, before, pods) && (ChangesRest(Run(w, before), e) ==> Some(e.rendered) == pods))
  }

  lemma ManualPodsStep(w: World, e: Event, h: string)
    requires HasHash(w, h) && h != "" && w.template in w.past && Manual(e) && e != PodsRestarted
    requires e.Reconcile? && e.read.Shows? ==> e.read.template == w.template
    ensures Next(w, e).pods == if ChangesRest(w, e) then Some(e.rendered) else w.pods
  {}

  /** Over a Manual run with current reads in which nobody restarts the pods, they keep what they loaded at every moment
      exactly when each reconcile that changed any other part of the template (an image, an argument, a renamed
      Strategy, a new default image) rendered the very config they already run. Keeping the hash is not enough. */
  lemma {:induction false} ManualKeepsPodsExactly(w: World, events: seq<Event>, h: string)
    requires HasHash(w, h) && h != "" && w.template in w.past && CurrentManualRun(w, events)
    requires PodsRestarted !in events
    ensures PodsStay(w, events, w.pods) <==> OnlyOntoSame(w, events, w.pods)
  {
    if events != [] {
      var before, e := events[..|events| - 1], events[|events| - 1];
      ManualKeepsPodsExactly(w, before, h);
      ManualKeepsTemplate(w, before, h);
      assert e in events;
      ManualPodsStep(Run(w, before), e, h);
      if PodsStay(w, before, w.pods) { assert Run(w, before).pods == w.pods; }
    }
  }

  /** The failing case: under Manual, with a config that has moved on, an edit of the image (or anything else in the
      template) restarts the bot onto the new config, and ConfigDrift goes on saying that it is not running it. */
  lemma ImageEditRollsOntoNewConfig(w: World, rendered: string, rest: string)
    requires w.template.Some? && w.template.value.hash !in {"", rendered} && w.template in w.past
    requires w.pods == Some(w.template.value.hash) && rest != w.template.value.rest
    ensures var w' := Run(w, [Reconcile(false, rendered, rest, Shows(w.template), Completed)]);
            w'.pods == Some(rendered) && w'.drift == Some(true) && HasHash(w', w.template.value.hash)
  {
    var events := [Reconcile(false, rendered, rest, Shows(w.template), Completed)];
    assert events[..0] == [];
    assert Run(w, events) == Next(Run(w, events[..0]), events[0]);
  }

  // ---------- ConfigDrift over whole runs ----------

  /** The template a reconcile writes, if it gets that far. */
  function Written(w: World, e: Event): Option<Template> {
    if GetsThere(e) && Possible(w, e) then Some(Template(TemplateHash(e.auto, e.read, e.rendered).value, e.rest))
    else None
  }

  /** The template last written since the StatefulSet was last deleted, from the events alone. */
  function LastWritten(events: seq<Event>): Option<Template> {
    if events == [] then None
    else
      var before, e := events[..|events| - 1], events[|events| - 1];
      var t := Written(Run(Initial(), before), e);
      if e.StatefulSetDeleted? then None else if t.Some? then t else LastWritten(before)
  }

  datatype Report = Report(hash: string, rendered: string)

  /** What the last completed reconcile wrote and rendered. */
  function LastCompleted(events: seq<Event>): Option<Report> {
    if events == [] then None
    else
      var before, e := events[..|events| - 1], events[|events| - 1];
      var t := Written(Run(Initial(), before), e);
      if t.Some? && e.stop == Completed then Some(Report(t.value.hash, e.rendered)) else LastCompleted(before)
  }

  /** In every run, with any interleaving of Manual and Auto, partial reconciles, lagging reads, restarts and deletions:
      the StatefulSet has the template last written, and the stored drift and appliedConfigHash are those of the last
      completed reconcile, however far later ones got. */
  lemma {:induction false} StatusIsLastCompleted(events: seq<Event>)
    ensures
      var w, r := Run(Initial(), events), LastCompleted(events);
      && w.template == LastWritten(events)
      && w.drift == (if r.None? then None else Some(r.value.hash != r.value.rendered))
      && w.applied == (if r.None? then "" else r.value.rendered)
  {
    if events != [] { StatusIsLastCompleted(events[..|events| - 1]); }
  }

  /** ConfigDrift is right about the StatefulSet as it is now. */
  predicate DriftIsRight(w: World) {
    w.template.Some? && w.drift == Some(w.template.value.hash != w.applied)
  }

  /** Exactly when, in every run that ever completed a reconcile: the StatefulSet still exists, and the hash last
      written to it agrees with the rendered one just if the hash the last completed reconcile wrote did. A report of no
      drift is thus right exactly until a later reconcile, cut short before its status, writes another hash, or the
      StatefulSet goes. */
  lemma {:induction false} DriftIsRightExactly(events: seq<Event>)
    requires LastCompleted(events).Some?
    ensures
      var w, r, t := Run(Initial(), events), LastCompleted(events).value, LastWritten(events);
      && (DriftIsRight(w) <==> t.Some? && (t.value.hash == r.rendered <==> r.hash == r.rendered))
      && (w.drift == Some(false) ==> (DriftIsRight(w) <==> t.Some? && t.value.hash == r.hash))
  {
    StatusIsLastCompleted(events);
  }

  // ---------- What the pods run, over whole runs ----------

  /** What the config Secret was last given, from the events alone. */
  function LastRendered(events: seq<Event>): Option<string> {
    if events == [] then None
    else
      var before, e := events[..|events| - 1], events[|events| - 1];
      if e.Reconcile? && Possible(Run(Initial(), before), e) && e.stop != BeforeSecret then Some(e.rendered)
      else LastRendered(before)
  }

  /** What last loaded the pods loaded the config whose hash the template has, from the events alone: a reconcile that
      changed the template did so with the hash it rendered, or a restart came when the Secret's last render had the
      hash last written. Under Auto only restarts can fail this. */
  predicate LoadedInStep(events: seq<Event>) {
    events == [] ||
    (var before, e := events[..|events| - 1], events[|events| - 1];
     var t, last := Written(Run(Initial(), before), e), LastWritten(before);
     if e.StatefulSetDeleted? then true
     else if e.PodsRestarted? then last.Some? ==> LastRendered(before) == Some(last.value.hash)
     else if t.Some? && t != last then t.value.hash == e.rendered
     else LoadedInStep(before))
  }

  /** In every run, with any interleaving of Manual and Auto, reconciles cut short anywhere, lagging reads, restarts and
      deletions: the Secret holds the last render, and the pods run the config whose hash the template has exactly when
      what last loaded them was in step. */
  lemma {:induction false} PodsInStepExactly(events: seq<Event>)
    ensures
      var w := Run(Initial(), events);
      && w.secret == LastRendered(events)
      && (w.template.Some? ==> w.secret.Some? && w.pods.Some?)
      && (w.template.Some? ==> (w.pods == Some(w.template.value.hash) <==> LoadedInStep(events)))
  {
    if events != [] {
      PodsInStepExactly(events[..|events| - 1]);
      StatusIsLastCompleted(events[..|events| - 1]);
    }
  }

  // ---------- Auto mode ----------

  /** What one completed Auto reconcile leaves, after any run of either mode: template, Secret and status agree with
      what it rendered, and the pods run that exactly when it changed the template or they were in step with it
      before. */
  lemma CompletedAutoReconcile(events: seq<Event>, e: Event)
    requires GetsThere(e) && e.auto && e.stop == Completed && Possible(Run(Initial(), events), e)
    ensures
      var t, w := Template(e.rendered, e.rest), Run(Initial(), events + [e]);
      && w.template == Some(t) && w.secret == Some(e.rendered) && w.drift == Some(false) && w.applied == e.rendered
      && (w.pods == Some(e.rendered) <==> LastWritten(events) != Some(t) || LoadedInStep(events))
  {
    assert (events + [e])[..|events + [e]| - 1] == events;
    StatusIsLastCompleted(events);
    PodsInStepExactly(events);
  }

  predicate Auto(e: Event) {
    e.Reconcile? ==> e.auto
  }

  /** Auto over every run of Auto reconciles, cut short anywhere, with restarts and deletions: no drift is ever
      reported, and the pods run the config the template names exactly unless the last restart since the template last
      changed came while the Secret held another render. */
  lemma {:induction false} AutoIsInStepExactly(events: seq<Event>)
    requires forall e :: e in events ==> Auto(e)
    ensures
      var w := Run(Initial(), events);
      && w.secret == LastRendered(events) && w.drift != Some(true)
      && (w.template.Some? ==> (w.pods == Some(w.template.value.hash) <==> LoadedInStep(events)))
  {
    PodsInStepExactly(events);
    AutoReportsNoDrift(events);
  }

  lemma {:induction false} AutoReportsNoDrift(events: seq<Event>)
    requires forall e :: e in events ==> Auto(e)
    ensures Run(Initial(), events).drift != Some(true)
  {
    if events != [] {
      AutoReportsNoDrift(events[..|events| - 1]);
      assert events[|events| - 1] in events;
    }
  }

  /** Auto reconciles that are not cut between the Secret and the StatefulSet, restarts and deletions. */
  predicate Uncut(e: Event) {
    Auto(e) && (e.Reconcile? ==> e.stop != BeforeStatefulSet)
  }

  lemma {:induction false} UncutIsInStep(events: seq<Event>)
    requires forall e :: e in events ==> Uncut(e)
    ensures LoadedInStep(events)
    ensures LastWritten(events).Some? ==> LastRendered(events) == Some(LastWritten(events).value.hash)
  {
    if events != [] {
      UncutIsInStep(events[..|events| - 1]);
      assert events[|events| - 1] in events;
    }
  }

  /** So in every run without such a cut, with any config and template edits, pods, template and Secret agree whenever
      the StatefulSet exists, and no drift is ever reported. */
  lemma AutoKeepsPodsCurrent(events: seq<Event>)
    requires forall e :: e in events ==> Uncut(e)
    ensures var w := Run(Initial(), events);
            && (w.template.Some? ==> w.pods == w.secret == Some(w.template.value.hash))
            && w.drift != Some(true)
  {
    AutoIsInStepExactly(events);
    UncutIsInStep(events);
    StatusIsLastCompleted(events);
  }

  /** Cut there once, it can settle on the wrong pods: the new Secret is loaded by a restart, the config is changed
      back, and nothing in the template tells. */
  lemma CutAutoReconcileLeavesPodsBehind(h: string, other: string, rest: string)
    requires h != other
    ensures
      var a := Reconcile(true, h, rest, ReadError, Completed);
      var events := [a, Reconcile(true, other, rest, ReadError, BeforeStatefulSet), PodsRestarted, a];
      var w := Run(Initial(), events);
      w.drift == Some(false) && w.template == Some(Template(h, rest)) && w.secret == Some(h) && w.pods == Some(other)
  {
    var a := Reconcile(true, h, rest, ReadError, Completed);
    var b := Reconcile(true, other, rest, ReadError, BeforeStatefulSet);
    var events := [a, b, PodsRestarted, a];
    assert events[..3][..2] == events[..2] && events[..2][..1] == events[..1] && events[..1][..0] == [];
    assert Run(Initial(), events[..1]) == Next(Initial(), a);
    assert Run(Initial(), events[..2]) == Next(Next(Initial(), a), b);
    assert Run(Initial(), events[..3]) == Next(Next(Next(Initial(), a), b), PodsRestarted);
  }

  // ---------- The remedy the message offers ----------

  /** Pod restarts and Manual reconciles that keep rendering the same. */
  predicate Alternates(events: seq<Event>, rendered: string) {
    forall e :: e in events ==> e == PodsRestarted || (e.Reconcile? && !e.auto && e.rendered == rendered)
  }

  lemma {:induction false} RestartsRun(w: World, events: seq<Event>, h: string, rendered: string)
    requires HasHash(w, h) && h != "" && w.template in w.past && w.secret == Some(rendered)
    requires CurrentManualRun(w, events) && Alternates(events, rendered)
    ensures var w' := Run(w, events);
            && HasHash(w', h) && w'.template in w'.past && w'.secret == Some(rendered)
            && (PodsRestarted in events ==> w'.pods == Some(rendered))
  {
    if events != [] {
      var before, e := events[..|events| - 1], events[|events| - 1];
      RestartsRun(w, before, h, rendered);
      assert events == before + [e] && e in events;
    }
  }

  /** It does not clear ConfigDrift: under Manual, with an unchanging config, no sequence of pod restarts, template
      edits and reconciles ever makes a completed reconcile report anything but drift, although from the first restart
      on the pods run exactly what was rendered. */
  lemma {:induction false} RestartsNeverClearDrift(w: World, events: seq<Event>, h: string, rendered: string)
    requires HasHash(w, h) && h !in {"", rendered} && w.template in w.past && w.secret == Some(rendered)
    requires CurrentManualRun(w, events) && Alternates(events, rendered)
    requires events != [] && GetsThere(events[|events| - 1]) && events[|events| - 1].stop == Completed
    ensures var w' := Run(w, events);
            w'.drift == Some(true) && (PodsRestarted in events ==> w'.pods == Some(rendered))
  {
    var before, e := events[..|events| - 1], events[|events| - 1];
    RestartsRun(w, before, h, rendered);
    RestartsRun(w, events, h, rendered);
    assert e in events;
  }

  // ---------- The reconciler as it runs ----------

  class Rollout {
    var template: Option<Template>
    ghost var past: seq<Option<Template>>
    var secret: Option<string>
    var pods: Option<string>
    var drift: Option<bool>
    var applied: string

    ghost function View(): World reads this {
      World(template, past, secret, pods, drift, applied)
    }

    constructor ()
      ensures View() == Initial()
    {
      template, past, secret, pods, drift, applied := None, [None], None, None, None, "";
    }

    /** reconcileResources from the Secret on, then the status patch. */
    method ReconcileResources(auto: bool, rendered: string, rest: string, read: Read, stop: Stop)
      modifies this
      ensures View() == Reconciled(old(View()), auto, rendered, rest, read, stop)
    {
      if stop == BeforeSecret { return; }
      secret := Some(rendered);
      if stop == BeforeStatefulSet { return; }
      var hash := rendered;
      if !auto {
        match read {
          case ReadError => return;
          case Shows(existing) => if existing.Some? && existing.value.hash != "" { hash := existing.value.hash; }
        }
      }
      var configDrift := hash != rendered;
      ApplyStatefulSet(Template(hash, rest));
      if stop != Completed { return; }
      drift, applied := Some(configDrift), rendered;
    }

    method ApplyStatefulSet(t: Template)
      modifies this`template, this`past, this`pods
      ensures View() == ApplyTemplate(old(View()), t)
    {
      if template != Some(t) { pods := secret; }
      template, past := Some(t), past + [Some(t)];
    }
  }
}
