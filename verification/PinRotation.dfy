/**
 The resumable rotation of the pinned Windows image. The installation keeps the
 digest of its configuration in SQLite and the configuration itself in the anchor
 file; a durable intent covers the moment when only one of them is replaced. Each
 field assignment below is one atomic durable effect, and `points` lists the
 installation after each of them: a crash leaves one of these states.
 */
module PinRotation {
  import opened Optional

  /** The anchored configuration: the pinned image and everything a rotation must not change. */
  datatype Configuration = Configuration(bridge: nat, rest: nat)

  /** Fingerprints are collision free: a digest is modelled by the value it digests. */
  datatype Fingerprint = Fingerprint(of: Configuration)

  datatype Anchor = Anchor(configuration: Configuration, sha: Fingerprint)

  datatype Intent = Intent(oldImage: nat, newImage: nat, oldAnchor: Fingerprint, newAnchor: Fingerprint)

  datatype Durable = Durable(sql: Option<Fingerprint>, anchor: Anchor, intent: Option<Intent>, archive: seq<Intent>)

  datatype Args = Args(prior: nat, replacement: nat, apply: bool, resume: bool)

  /** The answers of the outside world: the reviewed image and coordinator, the daemon's identity and
      locks, the admission barrier, and the stop of the service. Each may fail. */
  datatype Env = Env(reviewed: bool, identified: bool, quiesced: bool, stopped: bool)

  function Pinned(c: Configuration, image: nat): Configuration { c.(bridge := image) }

  function IntentFor(c: Configuration, a: Args): Intent {
    Intent(a.prior, a.replacement, Fingerprint(Pinned(c, a.prior)), Fingerprint(Pinned(c, a.replacement)))
  }

  // ---- What one invocation does --------------------------------------------------------------------

  /** Every check made before the first effect. */
  predicate Admits(d: Durable, a: Args, env: Env) {
    var c := d.anchor.configuration;
    var i := IntentFor(c, a);
    && a.prior != a.replacement
    && d.anchor.sha == Fingerprint(c)
    && (c.bridge == a.prior || (a.resume && c.bridge == a.replacement))
    && env.reviewed
    && (if d.intent.Some? then a.resume && d.intent.value == i else !a.resume)
    && a.apply && env.identified
    && (d.sql == Some(i.oldAnchor) || (a.resume && d.sql == Some(i.newAnchor)))
    && env.quiesced
  }

  /** The checks of the commit itself, made again under the locks. */
  predicate Commits(d: Durable, i: Intent, replacement: Configuration) {
    var prior := Pinned(replacement, i.oldImage);
    && (d.anchor.configuration == prior || d.anchor.configuration == replacement)
    && d.anchor.sha == Fingerprint(d.anchor.configuration)
    && i.newAnchor == Fingerprint(replacement) && i.oldAnchor == Fingerprint(prior)
    && (d.sql == Some(i.oldAnchor) || d.sql == Some(i.newAnchor))
  }

  function AnchorOf(c: Configuration): Anchor { Anchor(c, Fingerprint(c)) }

  /** SQL first, then the anchor. */
  function CommitPoints(d: Durable, i: Intent, replacement: Configuration): seq<Durable> {
    if !Commits(d, i, replacement) then []
    else [d.(sql := Some(i.newAnchor)), d.(sql := Some(i.newAnchor), anchor := AnchorOf(replacement))]
  }

  function Last(d: Durable, points: seq<Durable>): Durable { if points == [] then d else points[|points| - 1] }

  /** The installation after each durable effect of one invocation that is not interrupted. */
  function Points(d: Durable, a: Args, env: Env): seq<Durable> {
    if !Admits(d, a, env) then []
    else
      var i := IntentFor(d.anchor.configuration, a);
      var marked := d.(intent := Some(i));
      var opening := if d.intent.Some? then [] else [marked];
      if !env.stopped then opening
      else
        var commit := CommitPoints(marked, i, Pinned(d.anchor.configuration, a.replacement));
        if commit == [] then opening
        else opening + commit + [Last(marked, commit).(intent := None, archive := d.archive + [i])]
  }

  /** The durable state as an object whose effects happen one at a time. */
  class Installation {
    var sql: Option<Fingerprint>
    var anchor: Anchor
    var intent: Option<Intent>
    var archive: seq<Intent>
    ghost var points: seq<Durable>

    function Contents(): Durable
      reads this
    {
      Durable(sql, anchor, intent, archive)
    }

    ghost predicate Recorded()
      reads this
    {
      points != [] && points[|points| - 1] == Contents()
    }

    constructor (d: Durable)
      ensures Contents() == d && points == [d] && Recorded()
    {
      sql, anchor, intent, archive, points := d.sql, d.anchor, d.intent, d.archive, [d];
    }

    /** Replace the SQL digest, then the anchor; refuse if either was changed by anyone else. */
    method CommitRotation(i: Intent, replacement: Configuration) returns (ok: bool)
      requires Recorded()
      modifies this`sql, this`anchor, this`points
      ensures Recorded() && points == old(points) + CommitPoints(old(Contents()), i, replacement)
      ensures ok == Commits(old(Contents()), i, replacement)
    {
      var prior := replacement.(bridge := i.oldImage);
      if (anchor.configuration != prior && anchor.configuration != replacement)
         || Fingerprint(anchor.configuration) != anchor.sha
         || Fingerprint(replacement) != i.newAnchor || Fingerprint(prior) != i.oldAnchor
      {
        return false;
      }
      if sql != Some(i.oldAnchor) && sql != Some(i.newAnchor) { return false; }
      sql := Some(i.newAnchor);
      points := points + [Contents()];
      anchor := Anchor(replacement, i.newAnchor);
      points := points + [Contents()];
      ok := true;
    }

    /** One invocation of the tool. */
    method Rotate(a: Args, env: Env) returns (ok: bool)
      requires Recorded()
      modifies this
      ensures Recorded() && points == old(points) + Points(old(Contents()), a, env)
      ensures Contents() == Last(old(Contents()), Points(old(Contents()), a, env))
      ensures ok <==> Admits(old(Contents()), a, env) && env.stopped
    {
      ok := false;
      if a.prior == a.replacement { return; }
      var configuration := anchor.configuration;
      if Fingerprint(configuration) != anchor.sha { return; }
      if configuration.bridge != a.prior && !(a.resume && configuration.bridge == a.replacement) { return; }
      if !env.reviewed { return; }
      var replacement := configuration.(bridge := a.replacement);
      var i := Intent(a.prior, a.replacement, Fingerprint(configuration.(bridge := a.prior)), Fingerprint(replacement));
      if intent.Some? {
        if !a.resume || intent.value != i { return; }
      } else if a.resume {
        return;
      }
      if !a.apply || !env.identified { return; }
      if sql != Some(i.oldAnchor) && !(a.resume && sql == Some(i.newAnchor)) { return; }
      if !env.quiesced { return; }
      if intent.None? {
        intent := Some(i);
        points := points + [Contents()];
      }
      if !env.stopped { return; }
      ok := CommitRotation(i, replacement);
      if !ok { return; }
      intent, archive := None, archive + [i];
      points := points + [Contents()];
    }
  }

  // ---- Runs with interruptions -----------------------------------------------------------------------

  /** One invocation, interrupted after its first `effects` effects. */
  datatype Invocation = Invocation(args: Args, env: Env, effects: nat)

  function After(d: Durable, v: Invocation): Durable {
    var points := Points(d, v.args, v.env);
    Last(d, if v.effects < |points| then points[..v.effects] else points)
  }

  function Run(d: Durable, invocations: seq<Invocation>): Durable
    decreases invocations
  {
    if invocations == [] then d else Run(After(d, invocations[0]), invocations[1..])
  }

  /** (SQL, anchor) is (old,old), (new,old) or (new,new). */
  predicate Pair(d: Durable, prior: Configuration, replacement: Configuration) {
    || (d.sql == Some(Fingerprint(prior)) && d.anchor == AnchorOf(prior))
    || (d.sql == Some(Fingerprint(replacement)) && d.anchor == AnchorOf(prior))
    || (d.sql == Some(Fingerprint(replacement)) && d.anchor == AnchorOf(replacement))
  }

  predicate Split(d: Durable) { d.sql != Some(Fingerprint(d.anchor.configuration)) }

  /** A retained intent describes a rotation of this very configuration and explains the pair; without
      one the pair agrees. */
  predicate Recoverable(d: Durable) {
    var c := d.anchor.configuration;
    && d.anchor == AnchorOf(c)
    && match d.intent
       case None => !Split(d)
       case Some(i) =>
         && i.oldImage != i.newImage
         && i == IntentFor(c, Args(i.oldImage, i.newImage, true, true))
         && Pair(d, Pinned(c, i.oldImage), Pinned(c, i.newImage))
  }

  lemma PointsStayRecoverable(d: Durable, a: Args, env: Env, k: nat)
    requires Recoverable(d) && k < |Points(d, a, env)|
    ensures Recoverable(Points(d, a, env)[k])
    ensures Points(d, a, env)[k].anchor.configuration.rest == d.anchor.configuration.rest
  {
  }

  lemma InvocationKeeps(d: Durable, v: Invocation)
    requires Recoverable(d)
    ensures Recoverable(After(d, v)) && After(d, v).anchor.configuration.rest == d.anchor.configuration.rest
  {
    hide Points, Recoverable;
    var points := Points(d, v.args, v.env);
    var n := if v.effects < |points| then v.effects else |points|;
    if n > 0 { PointsStayRecoverable(d, v.args, v.env, n - 1); }
  }

  /** Over any invocations with any arguments, interrupted anywhere, the installation stays explained by
      its intent, a split pair always has that intent on disk, and only the image digest changes. */
  lemma {:induction false} RotationsStayRecoverable(d: Durable, invocations: seq<Invocation>)
    requires Recoverable(d)
    ensures var n := Run(d, invocations);
            && Recoverable(n) && n.anchor.configuration.rest == d.anchor.configuration.rest
            && (Split(n) ==> n.intent.Some? && n.sql == Some(n.intent.value.newAnchor)
                             && Fingerprint(n.anchor.configuration) == n.intent.value.oldAnchor)
    decreases invocations
  {
    if invocations != [] {
      InvocationKeeps(d, invocations[0]);
      hide After, Recoverable;
      RotationsStayRecoverable(After(d, invocations[0]), invocations[1..]);
    }
  }

  lemma InvocationKeepsPair(d: Durable, v: Invocation, prior: Configuration, replacement: Configuration)
    requires Recoverable(d) && Pair(d, prior, replacement) && replacement == Pinned(prior, replacement.bridge)
        && prior != replacement
    requires v.args.prior == prior.bridge && v.args.replacement == replacement.bridge
    ensures Pair(After(d, v), prior, replacement)
  {
  }

  /** Every crash point of one rotation, resumed any number of times, shows one of the three pairs. */
  lemma {:induction false} RotationShowsOnlyThreePairs(d: Durable, invocations: seq<Invocation>, prior: Configuration,
    replacement: Configuration)
    requires Recoverable(d) && Pair(d, prior, replacement) && replacement == Pinned(prior, replacement.bridge)
        && prior != replacement
    requires forall v :: v in invocations ==> v.args.prior == prior.bridge && v.args.replacement == replacement.bridge
    ensures Pair(Run(d, invocations), prior, replacement)
    decreases invocations
  {
    hide After, Recoverable, Pair;
    if invocations != [] {
      InvocationKeeps(d, invocations[0]);
      InvocationKeepsPair(d, invocations[0], prior, replacement);
      RotationShowsOnlyThreePairs(After(d, invocations[0]), invocations[1..], prior, replacement);
    }
  }

  /** Resuming with the digests of the retained intent reaches (new,new) and archives the intent, from
      every state an interruption can leave. */
  lemma ResumeCompletes(d: Durable)
    requires Recoverable(d) && d.intent.Some?
    ensures var i := d.intent.value;
            var c := Pinned(d.anchor.configuration, i.newImage);
            Last(d, Points(d, Args(i.oldImage, i.newImage, true, true), Env(true, true, true, true)))
            == Durable(Some(Fingerprint(c)), AnchorOf(c), None, d.archive + [i])
  {
    var i := d.intent.value;
    var a, env := Args(i.oldImage, i.newImage, true, true), Env(true, true, true, true);
    assert Admits(d, a, env);
    assert Commits(d, i, Pinned(d.anchor.configuration, i.newImage));
  }

  /** From any state at all, even a damaged one, an invocation completes exactly when its checks pass and
      the service stops; the second set of checks refuses nothing the first let through. When a check
      fails nothing is written. */
  lemma CompletesIffAdmitted(d: Durable, a: Args, env: Env)
    ensures var end := Last(d, Points(d, a, env));
            && (|end.archive| == |d.archive| + 1 <==> Admits(d, a, env) && env.stopped)
            && (!Admits(d, a, env) ==> Points(d, a, env) == [])
            && (forall k :: 0 <= k < |Points(d, a, env)| ==>
              Points(d, a, env)[k].anchor.configuration.rest == d.anchor.configuration.rest)
  {
    if Admits(d, a, env) {
      var i := IntentFor(d.anchor.configuration, a);
      var marked := d.(intent := Some(i));
      assert Commits(marked, i, Pinned(d.anchor.configuration, a.replacement));
    }
  }
}
