/** Which secrets a reconcile writes, and what an accepted write leaves there:
    place, type, owner, labels and data, each under its own name. */
module SecretContents {
  import opened Domain
  import opened Stores
  import opened Controller
  import opened Runs
  import opened Safety
  import opened Secrets

  /** What every accepted write of the kubeconfig secret leaves in it. */
  predicate KubeconfigHolds(p: Params, n: Option<Secret>, kc: Bytes) {
    && n.Some?
    && n.value.data == map["value" := kc]
    && n.value.labels == map["cluster.x-k8s.io/cluster-name" := p.cluster.name]
  }

  /** What every accepted write of the CA secret leaves in it. */
  predicate CaHolds(p: Params, n: Option<Secret>, crt: Bytes, key: Bytes) {
    && n.Some?
    && n.value.data == map["tls.crt" := crt, "tls.key" := key]
    && n.value.labels == map["cluster.x-k8s.io/cluster-name" := p.cluster.name]
    && n.value.kind == "cluster.x-k8s.io/secret"
  }

  /** A kubeconfig secret n written over o: a new one gets owner and type, an old
      one keeps them. */
  predicate KubeconfigLands(p: Params, o: Option<Secret>, n: Option<Secret>, kc: Bytes) {
    && KubeconfigHolds(p, n, kc)
    && (o.None? ==> n.value.owner == Some(p.cluster.name) && n.value.kind == "Opaque")
    && (o.Some? ==> n.value.owner == o.value.owner && n.value.kind == o.value.kind)
  }

  /** A CA secret n written over o. */
  predicate CaLands(p: Params, o: Option<Secret>, n: Option<Secret>, crt: Bytes, key: Bytes) {
    && CaHolds(p, n, crt, key)
    && n.value.owner == if o.Some? then o.value.owner else Some(p.cluster.name)
  }

  /** What the pending secret request of k leaves at `key`, the place it is for. */
  predicate Lands(p: Params, w: World, w': World, k: Worker, key: SecretKey) {
    var o, n := Lookup(Cur(w).secrets, key), Lookup(Cur(w').secrets, key);
    if WritesKubeconfig(k) then
      key == SecretKey(p.cluster.namespace, p.cluster.name + "-kubeconfig") && KubeconfigLands(p, o, n, k.kc)
    else
      && key == SecretKey(p.cluster.namespace, p.cluster.name + "-ca")
      && (k.DroppingCa? ==> n.None?)
      && (!k.DroppingCa? ==> (k.CreatingCa? || k.UpdatingCa?) && CaLands(p, o, n, k.crt, k.key))
  }

  /** The store takes a secret request: a creation at a free place, an update
      that is not outdated, a deletion of what is there. */
  predicate Taken(w: World, c: Call)
    requires WritesSecret(c)
  {
    match c
    case CreateSecret(key, _) => key !in Cur(w).secrets
    case PutSecret(key, s) => key in Cur(w).secrets && Cur(w).secrets[key].rv == s.rv
    case DeleteSecret(key) => key in Cur(w).secrets
  }

  lemma UpdateLands(p: Params, s: State, inp: Input)
    requires HistoryInv(p, s) && Minted(s.k) && RequestOf(p, s.k).PutSecret? && Taken(s.w, RequestOf(p, s.k))
    ensures Lands(p, s.w, Serve(p, s.w, RequestOf(p, s.k), inp).0, s.k, RequestOf(p, s.k).key)
  {
    PendingUpdateFits(p, s);
  }

  lemma UpdateRefused(p: Params, s: State, inp: Input)
    requires HistoryInv(p, s) && RequestOf(p, s.k).PutSecret? && !Taken(s.w, RequestOf(p, s.k))
    ensures Serve(p, s.w, RequestOf(p, s.k), inp).0 == s.w
  {
    PendingUpdateFits(p, s);
  }

  lemma TakenLands(p: Params, s: State, inp: Input)
    requires HistoryInv(p, s) && Minted(s.k) && WritesSecret(RequestOf(p, s.k)) && Taken(s.w, RequestOf(p, s.k))
    ensures Lands(p, s.w, Serve(p, s.w, RequestOf(p, s.k), inp).0, s.k, RequestOf(p, s.k).key)
  {
    if RequestOf(p, s.k).PutSecret? {
      UpdateLands(p, s, inp);
    }
  }

  lemma OnlyItsPlace(p: Params, w: World, c: Call, inp: Input, key: SecretKey)
    requires WritesSecret(c) && key != c.key
    ensures Lookup(Cur(Serve(p, w, c, inp).0).secrets, key) == Lookup(Cur(w).secrets, key)
  {
  }

  lemma OnlyIfTaken(p: Params, s: State, inp: Input)
    requires HistoryInv(p, s) && WritesSecret(RequestOf(p, s.k)) && !Taken(s.w, RequestOf(p, s.k))
    ensures Serve(p, s.w, RequestOf(p, s.k), inp).0 == s.w
  {
    if RequestOf(p, s.k).PutSecret? {
      UpdateRefused(p, s, inp);
    }
  }

  /** In every run: a secret request the store takes lands at the kubeconfig or
      the CA secret of the cluster, with the content this location holds. */
  lemma SecretWritesLand(p: Params, s: State, labels: seq<Label>, inp: Input)
    requires Init(s) && inp.outcome != Fails
    ensures var t := Run(p, s, labels);
            var c := RequestOf(p, t.k);
            WritesSecret(c) && Taken(t.w, c) ==> Lands(p, t.w, Apply(p, t, Request(inp)).w, t.k, c.key)
  {
    InitHistory(p, s);
    RunKeepsHistory(p, s, labels);
    RunMinted(p, s, labels);
    var t := Run(p, s, labels);
    if WritesSecret(RequestOf(p, t.k)) && Taken(t.w, RequestOf(p, t.k)) {
      TakenLands(p, t, inp);
    }
  }

  /** In every run: no secret changes by a request in any other way. */
  lemma NothingElseLands(p: Params, s: State, labels: seq<Label>, inp: Input, key: SecretKey)
    requires Init(s)
    ensures var t := Run(p, s, labels);
            var w', c := Apply(p, t, Request(inp)).w, RequestOf(p, t.k);
            Lookup(Cur(w').secrets, key) != Lookup(Cur(t.w).secrets, key) ==>
              && inp.outcome != Fails && WritesSecret(c) && c.key == key && Taken(t.w, c)
              && Lands(p, t.w, w', t.k, key)
  {
    InitHistory(p, s);
    RunKeepsHistory(p, s, labels);
    var t := Run(p, s, labels);
    var c := RequestOf(p, t.k);
    if !WritesSecret(c) {
      OtherCallsKeepSecrets(p, t.w, c, inp);
    } else if c.key != key {
      OnlyItsPlace(p, t.w, c, inp, key);
    } else if !Taken(t.w, c) {
      OnlyIfTaken(p, t, inp);
    } else if inp.outcome != Fails {
      SecretWritesLand(p, s, labels, inp);
    }
  }
}
