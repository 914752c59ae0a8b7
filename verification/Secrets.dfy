/** The kubeconfig and CA secrets, over runs whose reads may be stale. */
module Secrets {
  import opened Domain
  import opened Stores
  import opened Controller
  import opened Runs
  import opened Safety
  import opened Writes

  function CaAt(p: Params, c: Snapshot): Option<Secret> {
    Lookup(c.secrets, CaKey(p.cluster))
  }

  function KubeconfigAt(p: Params, c: Snapshot): Option<Secret> {
    Lookup(c.secrets, KubeconfigKey(p.cluster))
  }

  // ---- What the controller writes ----

  /** The CA secret being prepared is complete. */
  predicate Minted(k: Worker) {
    match k
    case RecheckingCa(_, _, crt, key) => crt != [] && key != []
    case CreatingCa(_, crt, key) => crt != [] && key != []
    case DroppingCa(_, crt, key) => crt != [] && key != []
    case UpdatingCa(_, crt, key, prior) => crt != [] && key != [] && prior.kind == CLUSTER_SECRET
    case _ => true
  }

  predicate Complete(s: Secret) {
    s.kind == CLUSTER_SECRET && DataAt(s, "tls.crt") != [] && DataAt(s, "tls.key") != []
  }

  lemma ResumeMinted(p: Params, k: Worker, r: Reply, inp: Input)
    requires Minted(k)
    ensures Minted(Resume(p, k, r, inp))
  {
  }

  lemma StepMinted(p: Params, s: State, inp: Input)
    requires Minted(s.k)
    ensures Minted(Apply(p, s, Request(inp)).k)
  {
    ResumeMinted(p, s.k, Serve(p, s.w, RequestOf(p, s.k), inp).1, inp);
    ResumeMinted(p, s.k, Unavailable, inp);
  }

  lemma {:induction false} RunMinted(p: Params, s: State, labels: seq<Label>)
    requires Minted(s.k)
    ensures Minted(Run(p, s, labels).k)
  {
    if labels != [] {
      var before, l := labels[..|labels| - 1], labels[|labels| - 1];
      RunMinted(p, s, before);
      if l.Request? {
        StepMinted(p, Run(p, s, before), l.inp);
      }
    }
  }

  lemma WrittenCaComplete(p: Params, w: World, k: Worker, inp: Input)
    requires Minted(k)
    ensures var n := CaAt(p, Cur(Serve(p, w, RequestOf(p, k), inp).0));
            n != CaAt(p, Cur(w)) && n.Some? ==> Complete(n.value)
  {
    SecretKeysApart(p.cluster, p.cluster);
  }

  /** In every run, whatever CA secret the controller writes has the cluster
      type, a certificate and a key. */
  lemma CaWritesComplete(p: Params, s: State, labels: seq<Label>, inp: Input)
    requires Init(s)
    ensures var t := Run(p, s, labels);
            var o, n := CaAt(p, Cur(t.w)), CaAt(p, Cur(Apply(p, t, Request(inp)).w));
            n != o && n.Some? ==> Complete(n.value)
  {
    RunMinted(p, s, labels);
    var t := Run(p, s, labels);
    WrittenCaComplete(p, t.w, t.k, inp);
  }

  // ---- A resourceVersion stands for one content ----

  /** At most one commit, which stamps the secret if it changes it. */
  ghost predicate StampsSecret(w: World, w': World, key: SecretKey) {
    || (w'.log == w.log && w'.rev == w.rev)
    || (&& w'.rev == w.rev + 1 && w.log <= w'.log && |w'.log| == |w.log| + 1
        && (key in Cur(w').secrets ==>
              Cur(w').secrets[key].rv == w.rev + 1 || Lookup(Cur(w').secrets, key) == Lookup(Cur(w).secrets, key)))
  }

  lemma StampsKeepHistory(w: World, w': World, key: SecretKey)
    requires KeyHistory(w, key) && StampsSecret(w, w', key)
    ensures KeyHistory(w', key)
  {
    if w'.log != w.log {
      var m := |w.log|;
      assert w'.log[m] == Cur(w') && w.log[m - 1] == Cur(w);
      forall i | 0 <= i < m && key in w'.log[i].secrets && key in w'.log[m].secrets
        ensures w'.log[i].secrets[key].rv == w'.log[m].secrets[key].rv ==> w'.log[i].secrets[key] == w'.log[m].secrets[key]
      {
        assert w'.log[i] == w.log[i];
      }
    }
  }

  lemma ServeStamps(p: Params, w: World, c: Call, inp: Input, key: SecretKey)
    ensures StampsSecret(w, Serve(p, w, c, inp).0, key)
  {
  }

  predicate OwnKey(p: Params, key: SecretKey) {
    key == KubeconfigKey(p.cluster) || key == CaKey(p.cluster)
  }

  lemma OthersStamp(p: Params, s: State, l: Label, key: SecretKey)
    requires !l.Request? && OwnKey(p, key)
    ensures StampsSecret(s.w, Apply(p, s, l).w, key)
  {
  }

  ghost predicate SeenSecret(log: Log, key: SecretKey, x: Secret) {
    exists i :: 0 <= i < |log| && Lookup(log[i].secrets, key) == Some(x)
  }

  /** The secrets a reconcile holds were stored once. */
  ghost predicate Remembers(p: Params, log: Log, k: Worker) {
    && (k.UpdatingKubeconfigSecret? ==> SeenSecret(log, KubeconfigKey(p.cluster), k.prior))
    && ((k.FetchingCa? || k.RecheckingCa?) && k.existing.Some? ==> SeenSecret(log, CaKey(p.cluster), k.existing.value))
    && (k.UpdatingCa? ==> SeenSecret(log, CaKey(p.cluster), k.prior))
  }

  ghost predicate TruthfulReply(p: Params, log: Log, k: Worker, r: Reply) {
    r.SecretIs? ==>
      && (k.ReadingKubeconfigSecret? ==> SeenSecret(log, KubeconfigKey(p.cluster), r.secret))
      && (k.CheckingCa? || k.RecheckingCa? ==> SeenSecret(log, CaKey(p.cluster), r.secret))
  }

  lemma ServeTruthful(p: Params, w: World, k: Worker, inp: Input)
    ensures TruthfulReply(p, w.log, k, Serve(p, w, RequestOf(p, k), inp).1)
  {
  }

  lemma ResumeRemembers(p: Params, log: Log, k: Worker, r: Reply, inp: Input)
    requires Remembers(p, log, k) && TruthfulReply(p, log, k, r)
    ensures Remembers(p, log, Resume(p, k, r, inp))
  {
  }

  lemma RemembersLonger(p: Params, a: Log, b: Log, k: Worker)
    requires Remembers(p, a, k) && a <= b
    ensures Remembers(p, b, k)
  {
    assert forall i :: 0 <= i < |a| ==> b[i] == a[i];
  }

  ghost predicate HistoryInv(p: Params, s: State) {
    && KeyHistory(s.w, KubeconfigKey(p.cluster)) && KeyHistory(s.w, CaKey(p.cluster))
    && Remembers(p, s.w.log, s.k)
  }

  lemma StepRemembers(p: Params, s: State, inp: Input)
    requires Remembers(p, s.w.log, s.k)
    ensures Remembers(p, s.w.log, Apply(p, s, Request(inp)).k)
  {
    ServeTruthful(p, s.w, s.k, inp);
    ResumeRemembers(p, s.w.log, s.k, Serve(p, s.w, RequestOf(p, s.k), inp).1, inp);
    ResumeRemembers(p, s.w.log, s.k, Unavailable, inp);
  }

  lemma ApplyStamps(p: Params, s: State, l: Label, key: SecretKey)
    requires OwnKey(p, key)
    ensures StampsSecret(s.w, Apply(p, s, l).w, key)
  {
    if l.Request? {
      ServeStamps(p, s.w, RequestOf(p, s.k), l.inp, key);
    } else {
      OthersStamp(p, s, l, key);
    }
  }

  lemma ApplyRemembers(p: Params, s: State, l: Label)
    requires Remembers(p, s.w.log, s.k)
    ensures Remembers(p, s.w.log, Apply(p, s, l).k)
  {
    if l.Request? {
      StepRemembers(p, s, l.inp);
    }
  }

  lemma ApplyKeepsHistory(p: Params, s: State, l: Label)
    requires HistoryInv(p, s)
    ensures HistoryInv(p, Apply(p, s, l))
  {
    var s' := Apply(p, s, l);
    ApplyStamps(p, s, l, KubeconfigKey(p.cluster));
    ApplyStamps(p, s, l, CaKey(p.cluster));
    StampsKeepHistory(s.w, s'.w, KubeconfigKey(p.cluster));
    StampsKeepHistory(s.w, s'.w, CaKey(p.cluster));
    ApplyRemembers(p, s, l);
    RemembersLonger(p, s.w.log, s'.w.log, s'.k);
  }

  lemma {:induction false} RunKeepsHistory(p: Params, s: State, labels: seq<Label>)
    requires HistoryInv(p, s)
    ensures HistoryInv(p, Run(p, s, labels))
  {
    if labels != [] {
      RunKeepsHistory(p, s, labels[..|labels| - 1]);
      ApplyKeepsHistory(p, Run(p, s, labels[..|labels| - 1]), labels[|labels| - 1]);
    }
  }

  /** A secret that was stored once and has the stored resourceVersion is the
      stored one. */
  lemma SecretIsCurrent(w: World, key: SecretKey, x: Secret)
    requires KeyHistory(w, key) && SeenSecret(w.log, key, x)
    requires key in Cur(w).secrets && Cur(w).secrets[key].rv == x.rv
    ensures Cur(w).secrets[key] == x
  {
    var i :| 0 <= i < |w.log| && Lookup(w.log[i].secrets, key) == Some(x);
    assert w.log[|w.log| - 1] == Cur(w);
  }

  /** What the store looks at in a pending update of a secret comes down to the
      resourceVersion, and an accepted one replaces data and labels only. */
  ghost predicate UpdateFits(w: World, key: SecretKey, x: Secret) {
    && (SecretUpdateAccepted(w, key, x) <==> key in Cur(w).secrets && Cur(w).secrets[key].rv == x.rv)
    && (SecretUpdateAccepted(w, key, x) ==> x == Cur(w).secrets[key].(data := x.data, labels := x.labels))
  }

  lemma PendingUpdateFits(p: Params, s: State)
    requires HistoryInv(p, s) && RequestOf(p, s.k).PutSecret?
    ensures UpdateFits(s.w, RequestOf(p, s.k).key, RequestOf(p, s.k).secret)
  {
    var key, x := RequestOf(p, s.k).key, RequestOf(p, s.k).secret;
    if key in Cur(s.w).secrets && Cur(s.w).secrets[key].rv == x.rv {
      SecretIsCurrent(s.w, key, s.k.prior);
    }
  }

  lemma InitHistory(p: Params, s: State)
    requires Init(s)
    ensures HistoryInv(p, s)
  {
  }

  /** Types are immutable, and the controller never asks for a change: in every
      run, an update of a secret that is not outdated carries the stored type and
      owner, so none is ever refused for its type. */
  lemma UpdatesKeepType(p: Params, s: State, labels: seq<Label>)
    requires Init(s)
    ensures var t := Run(p, s, labels);
            RequestOf(p, t.k).PutSecret? ==> UpdateFits(t.w, RequestOf(p, t.k).key, RequestOf(p, t.k).secret)
  {
    InitHistory(p, s);
    RunKeepsHistory(p, s, labels);
    if RequestOf(p, Run(p, s, labels).k).PutSecret? {
      PendingUpdateFits(p, Run(p, s, labels));
    }
  }

  // ---- One request and the two secrets ----

  /** The kubeconfig secret has been written in this reconcile. */
  predicate PastKubeconfig(k: Worker) {
    k.CheckingCa? || Minting(k) || k.Committing?
  }

  /** The first look at the CA secret has not shown a key. */
  predicate Minting(k: Worker) {
    k.FetchingCa? || k.RecheckingCa? || k.CreatingCa? || k.DroppingCa? || k.UpdatingCa?
  }

  /** What one request does to the secrets of cluster and reconcile; `look` is
      what a first look would show. */
  ghost predicate Advances(p: Params, c: Snapshot, k: Worker, look: Option<Secret>, c': Snapshot, k': Worker) {
    var ca, ca' := CaAt(p, c), CaAt(p, c');
    && (|| ca' == ca
        || (k.DroppingCa? && ca'.None?)
        || ((k.CreatingCa? || k.UpdatingCa?) && ca'.Some? && Complete(ca'.value)))
    && (KubeconfigAt(p, c).Some? ==> KubeconfigAt(p, c').Some?)
    && (PastKubeconfig(k') ==> PastKubeconfig(k) || KubeconfigAt(p, c').Some?)
    && (k'.Committing? ==> (k.CheckingCa? && HasKey(look)) || (Minting(k) && HasKey(ca')))
    && (Minting(k') ==> (k.CheckingCa? && !HasKey(look) && ca' == ca) || (Minting(k) && (ca' == ca || ca'.None?)))
  }

  lemma ServeCaSteps(p: Params, w: World, k: Worker, inp: Input)
    requires Minted(k) && PastKubeconfig(k)
    ensures var (w', r) := Serve(p, w, RequestOf(p, k), inp);
            Advances(p, Cur(w), k, CaAt(p, Read(w, inp.lag)), Cur(w'), Resume(p, k, r, inp))
  {
    SecretKeysApart(p.cluster, p.cluster);
  }

  predicate WritesKubeconfig(k: Worker) {
    k.CreatingKubeconfigSecret? || k.UpdatingKubeconfigSecret?
  }

  lemma ServeKubeconfigSteps(p: Params, w: World, k: Worker, inp: Input)
    requires WritesKubeconfig(k)
    ensures var (w', r) := Serve(p, w, RequestOf(p, k), inp);
            Advances(p, Cur(w), k, CaAt(p, Read(w, inp.lag)), Cur(w'), Resume(p, k, r, inp))
  {
    SecretKeysApart(p.cluster, p.cluster);
  }

  lemma OtherCallsKeepSecrets(p: Params, w: World, c: Call, inp: Input)
    requires !WritesSecret(c)
    ensures Cur(Serve(p, w, c, inp).0).secrets == Cur(w).secrets
  {
  }

  lemma ResumeEarly(p: Params, k: Worker, r: Reply, inp: Input)
    requires !PastKubeconfig(k) && !WritesKubeconfig(k)
    ensures !PastKubeconfig(Resume(p, k, r, inp))
  {
  }

  lemma ServeEarlierSteps(p: Params, w: World, k: Worker, inp: Input)
    requires !PastKubeconfig(k)
    ensures var (w', r) := Serve(p, w, RequestOf(p, k), inp);
            Advances(p, Cur(w), k, CaAt(p, Read(w, inp.lag)), Cur(w'), Resume(p, k, r, inp))
  {
    if WritesKubeconfig(k) {
      ServeKubeconfigSteps(p, w, k, inp);
    } else {
      OtherCallsKeepSecrets(p, w, RequestOf(p, k), inp);
      ResumeEarly(p, k, Serve(p, w, RequestOf(p, k), inp).1, inp);
    }
  }

  lemma UnansweredSteps(p: Params, c: Snapshot, k: Worker, look: Option<Secret>, c': Snapshot, k': Worker, inp: Input)
    requires Advances(p, c, k, look, c', k')
    requires k.RecheckingCa? ==> c' == c
    ensures Advances(p, c, k, look, c', Resume(p, k, Unavailable, inp))
  {
  }

  lemma UnservedSteps(p: Params, c: Snapshot, k: Worker, look: Option<Secret>, inp: Input)
    ensures Advances(p, c, k, look, c, Resume(p, k, Unavailable, inp))
  {
  }

  lemma StepAdvances(p: Params, w: World, k: Worker, inp: Input)
    requires Minted(k)
    ensures var (w', k') := Step(p, w, k, inp);
            Advances(p, Cur(w), k, CaAt(p, Read(w, inp.lag)), Cur(w'), k')
  {
    var (w', r) := Serve(p, w, RequestOf(p, k), inp);
    var look := CaAt(p, Read(w, inp.lag));
    if PastKubeconfig(k) { ServeCaSteps(p, w, k, inp); } else { ServeEarlierSteps(p, w, k, inp); }
    UnansweredSteps(p, Cur(w), k, look, Cur(w'), Resume(p, k, r, inp), inp);
    UnservedSteps(p, Cur(w), k, look, inp);
  }

  lemma ServeAppends(p: Params, w: World, c: Call, inp: Input)
    ensures var w' := Serve(p, w, c, inp).0;
            w.log <= w'.log && |w'.log| <= |w.log| + 1
  {
  }

  lemma StepAppends(p: Params, w: World, k: Worker, inp: Input)
    ensures var w' := Step(p, w, k, inp).0;
            w.log <= w'.log && |w'.log| <= |w.log| + 1
  {
    ServeAppends(p, w, RequestOf(p, k), inp);
  }

  /** Both secrets stay as they are. */
  ghost predicate SecretsUntouched(p: Params, s: State, s': State) {
    && s.w.log <= s'.w.log && |s'.w.log| <= |s.w.log| + 1
    && CaAt(p, Cur(s'.w)) == CaAt(p, Cur(s.w))
    && KubeconfigAt(p, Cur(s'.w)) == KubeconfigAt(p, Cur(s.w))
    && (s'.k == s.k || Copy(s'.k).None?)
  }

  lemma OthersUntouched(p: Params, s: State, l: Label)
    requires !l.Request?
    requires l.SecretEdit? ==> l.key != KubeconfigKey(p.cluster) && l.key != CaKey(p.cluster)
    ensures SecretsUntouched(p, s, Apply(p, s, l))
  {
  }

  /** The secrets a final write relies on are there. */
  ghost predicate Backed(p: Params, c: Snapshot, k: Worker) {
    && (PastKubeconfig(k) ==> KubeconfigAt(p, c).Some?)
    && (k.Committing? ==> HasKey(CaAt(p, c)))
  }

  // ---- The first look decides ----

  /** A first look at a CA secret that has a key shows one, if only an older one.
      All other reads may be as stale as they like. */
  predicate LooksWell(p: Params, w: World, k: Worker, inp: Input) {
    k.CheckingCa? && HasKey(CaAt(p, Cur(w))) ==> HasKey(CaAt(p, Read(w, inp.lag)))
  }

  /** A first look shows a key exactly if there is one. */
  predicate LooksTrue(p: Params, w: World, k: Worker, inp: Input) {
    k.CheckingCa? ==> (HasKey(CaAt(p, Cur(w))) <==> HasKey(CaAt(p, Read(w, inp.lag))))
  }

  ghost predicate FirstLooks(p: Params, s: State, labels: seq<Label>) {
    forall n :: 0 <= n < |labels| && labels[n].Request? ==>
      LooksWell(p, Run(p, s, labels[..n]).w, Run(p, s, labels[..n]).k, labels[n].inp)
  }

  ghost predicate TrueLooks(p: Params, s: State, labels: seq<Label>) {
    forall n :: 0 <= n < |labels| && labels[n].Request? ==>
      LooksTrue(p, Run(p, s, labels[..n]).w, Run(p, s, labels[..n]).k, labels[n].inp)
  }

  ghost predicate LookInv(p: Params, s: State) {
    Minted(s.k) && (Minting(s.k) ==> !HasKey(CaAt(p, Cur(s.w))))
  }

  lemma AdvanceKeepsLook(p: Params, w: World, k: Worker, inp: Input, w': World, k': Worker)
    requires LookInv(p, State(w, k)) && LooksWell(p, w, k, inp) && Minted(k')
    requires Advances(p, Cur(w), k, CaAt(p, Read(w, inp.lag)), Cur(w'), k')
    ensures LookInv(p, State(w', k'))
    ensures HasKey(CaAt(p, Cur(w))) ==> CaAt(p, Cur(w')) == CaAt(p, Cur(w))
  {
  }

  lemma ActKeepsLook(p: Params, s: State, l: Label)
    requires LookInv(p, s) && (l.Request? ==> LooksWell(p, s.w, s.k, l.inp))
    requires l.SecretEdit? ==> l.key != KubeconfigKey(p.cluster) && l.key != CaKey(p.cluster)
    ensures LookInv(p, Apply(p, s, l))
    ensures HasKey(CaAt(p, Cur(s.w))) ==> CaAt(p, Cur(Apply(p, s, l).w)) == CaAt(p, Cur(s.w))
  {
    if l.Request? {
      StepAdvances(p, s.w, s.k, l.inp);
      StepMinted(p, s, l.inp);
      AdvanceKeepsLook(p, s.w, s.k, l.inp, Apply(p, s, l).w, Apply(p, s, l).k);
    } else {
      OthersUntouched(p, s, l);
    }
  }

  lemma FirstLooksBefore(p: Params, s: State, labels: seq<Label>)
    requires labels != [] && FirstLooks(p, s, labels)
    ensures FirstLooks(p, s, labels[..|labels| - 1])
  {
    var before := labels[..|labels| - 1];
    assert forall n :: 0 <= n < |before| ==> before[..n] == labels[..n];
  }

  /** Once the CA secret has a key, it is never changed again, as long as first
      looks show that it has one. */
  lemma {:induction false} CaSecretStable(p: Params, s: State, labels: seq<Label>, n: nat)
    requires Init(s) && OnlyWriter(p, labels) && FirstLooks(p, s, labels) && n <= |labels|
    ensures LookInv(p, Run(p, s, labels))
    ensures var a, b := CaAt(p, Cur(Run(p, s, labels[..n]).w)), CaAt(p, Cur(Run(p, s, labels).w));
            HasKey(a) ==> b == a
  {
    if labels != [] {
      var before, l := labels[..|labels| - 1], labels[|labels| - 1];
      assert l in labels;
      FirstLooksBefore(p, s, labels);
      CaSecretStable(p, s, before, if n < |labels| then n else 0);
      ActKeepsLook(p, Run(p, s, before), l);
      if n < |labels| {
        assert before[..n] == labels[..n];
      } else {
        assert labels[..n] == labels;
      }
    }
  }

  /** Fresh reads are more than enough. */
  lemma FreshLooks(p: Params, s: State, labels: seq<Label>)
    requires FreshReads(labels)
    ensures TrueLooks(p, s, labels) && FirstLooks(p, s, labels)
  {
    forall n | 0 <= n < |labels| && labels[n].Request?
      ensures LooksTrue(p, Run(p, s, labels[..n]).w, Run(p, s, labels[..n]).k, labels[n].inp)
    {
      FreshLook(p, Run(p, s, labels[..n]).w, Run(p, s, labels[..n]).k, labels[n].inp);
    }
    TrueIsFirst(p, s, labels);
  }

  lemma FreshLook(p: Params, w: World, k: Worker, inp: Input)
    requires inp.lag == 0
    ensures LooksTrue(p, w, k, inp)
  {
  }

  lemma TrueIsFirst(p: Params, s: State, labels: seq<Label>)
    requires TrueLooks(p, s, labels)
    ensures FirstLooks(p, s, labels)
  {
    forall n | 0 <= n < |labels| && labels[n].Request?
      ensures LooksWell(p, Run(p, s, labels[..n]).w, Run(p, s, labels[..n]).k, labels[n].inp)
    {
      assert LooksTrue(p, Run(p, s, labels[..n]).w, Run(p, s, labels[..n]).k, labels[n].inp);
    }
  }

  // ---- Runs whose first looks are true ----

  lemma ActStaysBacked(p: Params, s: State, l: Label)
    requires Minted(s.k) && Backed(p, Cur(s.w), s.k) && (l.Request? ==> LooksTrue(p, s.w, s.k, l.inp))
    requires l.SecretEdit? ==> l.key != KubeconfigKey(p.cluster) && l.key != CaKey(p.cluster)
    ensures Backed(p, Cur(Apply(p, s, l).w), Apply(p, s, l).k)
  {
    if l.Request? {
      StepAdvances(p, s.w, s.k, l.inp);
    } else {
      OthersUntouched(p, s, l);
    }
  }

  lemma TrueLooksBefore(p: Params, s: State, labels: seq<Label>)
    requires labels != [] && TrueLooks(p, s, labels)
    ensures TrueLooks(p, s, labels[..|labels| - 1])
  {
    var before := labels[..|labels| - 1];
    assert forall n :: 0 <= n < |before| ==> before[..n] == labels[..n];
  }

  lemma {:induction false} TrueLooksBack(p: Params, s: State, labels: seq<Label>)
    requires s.k.Idle? && OnlyWriter(p, labels) && TrueLooks(p, s, labels)
    ensures Backed(p, Cur(Run(p, s, labels).w), Run(p, s, labels).k)
  {
    if labels != [] {
      var before, l := labels[..|labels| - 1], labels[|labels| - 1];
      assert l in labels;
      TrueLooksBefore(p, s, labels);
      TrueLooksBack(p, s, before);
      RunMinted(p, s, before);
      ActStaysBacked(p, Run(p, s, before), l);
    }
  }

  // ---- A sound past, and looks of any age ----

  ghost predicate AllTyped(p: Params, log: Log) {
    forall i :: 0 <= i < |log| && CaAt(p, log[i]).Some? ==> CaAt(p, log[i]).value.kind == CLUSTER_SECRET
  }

  ghost predicate AllKeyed(p: Params, log: Log) {
    forall i :: 0 <= i < |log| ==> HasKey(CaAt(p, log[i]))
  }

  /** If any snapshot shows a key, there is one. */
  ghost predicate KeyIsThere(p: Params, log: Log) {
    forall i :: 0 <= i < |log| && HasKey(CaAt(p, log[i])) ==> HasKey(CaAt(p, log[|log| - 1]))
  }

  /** No look into this past can mislead: a key that is shown is there, and no
      secret of another type is shown next to one that lacks a key. */
  ghost predicate SoundPast(p: Params, log: Log) {
    KeyIsThere(p, log) && (AllKeyed(p, log) || AllTyped(p, log))
  }

  predicate TypedCopy(k: Worker) {
    !k.DroppingCa? && ((k.FetchingCa? || k.RecheckingCa?) && k.existing.Some? ==> k.existing.value.kind == CLUSTER_SECRET)
  }

  /** Nothing with a key ever loses it, because nothing is ever dropped. */
  ghost predicate SoundInv(p: Params, s: State) {
    && SoundPast(p, s.w.log)
    && (Minting(s.k) ==> AllTyped(p, s.w.log) && TypedCopy(s.k))
    && Minted(s.k) && Backed(p, Cur(s.w), s.k)
  }

  lemma SoundGrows(p: Params, a: Log, b: Log)
    requires KeyIsThere(p, a) && a <= b && |b| <= |a| + 1
    requires var ca, ca' := CaAt(p, a[|a| - 1]), CaAt(p, b[|b| - 1]);
             ca' == ca || (AllTyped(p, a) && ca'.Some? && Complete(ca'.value))
    ensures KeyIsThere(p, b)
    ensures AllTyped(p, a) ==> AllTyped(p, b)
    ensures AllKeyed(p, a) ==> AllKeyed(p, b)
  {
    assert forall i :: 0 <= i < |a| ==> b[i] == a[i];
  }

  lemma ResumeTyped(p: Params, k: Worker, r: Reply, inp: Input)
    requires Minting(k) ==> TypedCopy(k)
    requires k.CheckingCa? && r.SecretIs? && !HasKey(Some(r.secret)) ==> r.secret.kind == CLUSTER_SECRET
    requires k.RecheckingCa? && r.SecretIs? ==> r.secret.kind == CLUSTER_SECRET
    ensures Minting(Resume(p, k, r, inp)) ==> TypedCopy(Resume(p, k, r, inp))
  {
  }

  lemma ReadInLog(w: World, lag: nat)
    ensures exists i :: 0 <= i < |w.log| && Read(w, lag) == w.log[i]
  {
    var i := if lag < |w.log| then |w.log| - 1 - lag else 0;
    assert Read(w, lag) == w.log[i];
  }

  /** What a look into a sound past tells. */
  lemma SoundLook(p: Params, w: World, lag: nat)
    requires SoundPast(p, w.log)
    ensures HasKey(CaAt(p, Read(w, lag))) ==> HasKey(CaAt(p, Cur(w)))
    ensures !HasKey(CaAt(p, Read(w, lag))) ==> AllTyped(p, w.log)
    ensures AllTyped(p, w.log) && CaAt(p, Read(w, lag)).Some? ==> CaAt(p, Read(w, lag)).value.kind == CLUSTER_SECRET
  {
    ReadInLog(w, lag);
  }

  lemma StepTyped(p: Params, s: State, inp: Input)
    requires SoundInv(p, s)
    ensures var k' := Apply(p, s, Request(inp)).k;
            Minting(k') ==> TypedCopy(k')
  {
    SoundLook(p, s.w, inp.lag);
    ResumeTyped(p, s.k, Serve(p, s.w, RequestOf(p, s.k), inp).1, inp);
    ResumeTyped(p, s.k, Unavailable, inp);
  }

  lemma AdvanceKeepsSound(p: Params, w: World, k: Worker, lag: nat, w': World, k': Worker)
    requires SoundInv(p, State(w, k)) && Advances(p, Cur(w), k, CaAt(p, Read(w, lag)), Cur(w'), k')
    requires w.log <= w'.log && |w'.log| <= |w.log| + 1 && Minted(k') && (Minting(k') ==> TypedCopy(k'))
    ensures SoundInv(p, State(w', k'))
  {
    SoundGrows(p, w.log, w'.log);
    SoundLook(p, w, lag);
  }

  lemma RequestKeepsSound(p: Params, s: State, inp: Input)
    requires SoundInv(p, s)
    ensures SoundInv(p, Apply(p, s, Request(inp)))
  {
    StepAdvances(p, s.w, s.k, inp);
    StepAppends(p, s.w, s.k, inp);
    StepMinted(p, s, inp);
    StepTyped(p, s, inp);
    AdvanceKeepsSound(p, s.w, s.k, inp.lag, Apply(p, s, Request(inp)).w, Apply(p, s, Request(inp)).k);
  }

  lemma UntouchedKeepsSound(p: Params, s: State, s': State)
    requires SoundInv(p, s) && SecretsUntouched(p, s, s')
    ensures SoundInv(p, s')
  {
    SoundGrows(p, s.w.log, s'.w.log);
  }

  lemma {:induction false} RunKeepsSound(p: Params, s: State, labels: seq<Label>)
    requires SoundInv(p, s) && OnlyWriter(p, labels)
    ensures SoundInv(p, Run(p, s, labels))
  {
    if labels != [] {
      var before, l := labels[..|labels| - 1], labels[|labels| - 1];
      assert l in labels;
      RunKeepsSound(p, s, before);
      var t := Run(p, s, before);
      if l.Request? {
        RequestKeepsSound(p, t, l.inp);
      } else {
        OthersUntouched(p, t, l);
        UntouchedKeepsSound(p, t, Apply(p, t, l));
      }
    }
  }

  // ---- The consistent commit ----

  ghost predicate CommitAccepted(p: Params, s: State, inp: Input) {
    s.k.Committing? && inp.outcome != Fails && Accepted(p, s.w, s.k)
  }

  /** Version and endpoint agree with the spec, and both secrets are there. */
  ghost predicate Consistent(p: Params, c: Snapshot, ctx: Ctx) {
    && c.obj.Some?
    && c.obj.value.status == Status(true, true, ctx.id, c.obj.value.spec.version)
    && c.obj.value.spec.endpoint == Desired(ctx.plane) && ctx.plane.status == READY
    && KubeconfigAt(p, c).Some? && HasKey(CaAt(p, c))
  }

  ghost predicate ConsistentAfter(p: Params, s: State, inp: Input) {
    s.k.Committing? && Consistent(p, Cur(Apply(p, s, Request(inp)).w), s.k.ctx)
  }

  lemma CommitIsConsistent(p: Params, s: State, inp: Input)
    requires Inv(s) && Backed(p, Cur(s.w), s.k) && CommitAccepted(p, s, inp)
    ensures ConsistentAfter(p, s, inp)
  {
    ReadyCommit(p, s, inp);
    CommitKeepsSecrets(p, s, inp);
  }

  lemma CommitKeepsSecrets(p: Params, s: State, inp: Input)
    requires s.k.Committing?
    ensures Cur(Apply(p, s, Request(inp)).w).secrets == Cur(s.w).secrets
  {
  }

  lemma RunIsBacked(p: Params, s: State, labels: seq<Label>)
    requires Init(s) && OnlyWriter(p, labels)
    requires SoundPast(p, s.w.log) || TrueLooks(p, s, labels)
    ensures Inv(Run(p, s, labels)) && Backed(p, Cur(Run(p, s, labels).w), Run(p, s, labels).k)
  {
    InitInv(s);
    RunKeepsInv(p, s, labels);
    if SoundPast(p, s.w.log) {
      RunKeepsSound(p, s, labels);
    } else {
      TrueLooksBack(p, s, labels);
    }
  }

  /** Consistent ready commit: when the final status write reaches the store, the
      stored status carries the stored spec's version, the stored endpoint is the
      one of the plane that was read as ready, the kubeconfig secret exists and
      the CA secret has a key, whatever users edited meanwhile and however stale
      the reads were. The exceptions are pasts that a look can be misled by;
      after such a past, first looks must show a key exactly if there is one. */
  lemma ConsistentReadyCommit(p: Params, s: State, labels: seq<Label>, inp: Input)
    requires Init(s) && OnlyWriter(p, labels)
    requires SoundPast(p, s.w.log) || TrueLooks(p, s, labels)
    requires CommitAccepted(p, Run(p, s, labels), inp)
    ensures ConsistentAfter(p, Run(p, s, labels), inp)
  {
    RunIsBacked(p, s, labels);
    CommitIsConsistent(p, Run(p, s, labels), inp);
  }
}
