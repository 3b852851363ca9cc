/** The certificate source of a cluster is fixed for life. */
module TlsSource {
  import opened Kube
  import opened Instances
  import opened Protocol
  import opened Effects
  import T = Translation

  /** Issuers that validation lets through, after normalisation. */
  predicate Allowed(issuer: Option<Issuer>) {
    issuer.Some? ==> issuer.value.name != "" && (issuer.value.kind == T.ISSUER || issuer.value.kind == T.CLUSTER_ISSUER)
  }

  /** Comparing issuers as kind/name strings is comparing issuers. */
  lemma IssuerTextInjective(a: Option<Issuer>, b: Option<Issuer>)
    requires Allowed(a) && Allowed(b)
    ensures T.IssuerText(a) == T.IssuerText(b) <==> a == b
  {
    if T.IssuerText(a) == T.IssuerText(b) {
      var s, t := T.IssuerText(a), T.IssuerText(b);
      if a.Some? && b.Some? {
        assert s[6] == t[6];
        assert a.value.kind == b.value.kind;
        var p := |a.value.kind| + 1;
        assert s[p..] == a.value.name && t[p..] == b.value.name;
      } else {
        assert |s| == |t|;
      }
    }
  }

  lemma NormalisedAllowed(name: string, inst: Instance, current: Option<ClusterSpec>, w: World)
    requires T.ValidateTls(name, inst, current, w).None?
    ensures T.TlsParameters(inst.tls).Ok? && Allowed(T.TlsParameters(inst.tls).value.issuer)
  {
  }

  lemma SecretNonEmpty(name: string, tls: Tls)
    ensures T.CertificateSecret(name, tls) != ""
  {
  }

  /** validateTLSChange accepts exactly the parameters that name the cluster's
      present source, or leave a secret open that the cluster does not name yet; in
      particular unchanged parameters always pass. */
  lemma ChangeCheckExact(name: string, tls: Tls, c: ClusterSpec)
    requires Allowed(tls.issuer) && Allowed(c.issuer)
    ensures T.ValidateTlsChange(name, tls, Some(c)).None? <==>
              (c.sslSecret == "" || c.sslSecret == T.CertificateSecret(name, tls)) && c.issuer == tls.issuer
  {
    IssuerTextInjective(c.issuer, tls.issuer);
  }

  /** The built cluster's source is the one its parameters name. */
  lemma BuiltSource(name: string, inst: Instance, w: World)
    requires T.BuildCluster(name, inst, w).Ok?
    ensures T.TlsParameters(inst.tls).Ok?
    ensures var c, tls := T.BuildCluster(name, inst, w).value, T.TlsParameters(inst.tls).value;
            c.sslSecret == T.CertificateSecret(name, tls) && c.issuer == tls.issuer
  {
    hide T.ImageFor, T.RegisterStorages, T.EngineConfiguration;
  }

  /** The cluster with identity u, as long as there is one, uses this source. */
  predicate SourceIs(s: State, n: string, u: nat, secret: string, issuer: Option<Issuer>) {
    && u < s.nextUid && secret != "" && Allowed(issuer)
    && (n in s.clusters && s.clusters[n].meta.uid == u ==>
          s.clusters[n].spec.sslSecret == secret && s.clusters[n].spec.issuer == issuer)
  }

  lemma SourceStep(s: State, st: Step, n: string, u: nat, secret: string, issuer: Option<Issuer>)
    requires SourceIs(s, n, u, secret, issuer)
    ensures SourceIs(Next(s, st), n, u, secret, issuer)
  {
    hide Next, SourceIs, ClusterStep;
    ClusterSteps(s, st, n);
    HistoryGrows(s, st);
    SourceAfter(s, st, Next(s, st), n, u, secret, issuer);
  }

  lemma SourceAfter(s: State, st: Step, s': State, n: string, u: nat, secret: string, issuer: Option<Issuer>)
    requires SourceIs(s, n, u, secret, issuer) && ClusterStep(s, st, n, s') && s.nextUid <= s'.nextUid
    ensures SourceIs(s', n, u, secret, issuer)
  {
    if st.ReconcileInstance? && n == st.name && n in s.instances && n in s.clusters && s.clusters[n].meta.uid == u
       && T.Validate(n, s.instances[n], CurrentSpec(s, n), st.w).None? && T.BuildCluster(n, s.instances[n], st.w).Ok? {
      BuiltSource(n, s.instances[n], st.w);
      NormalisedAllowed(n, s.instances[n], CurrentSpec(s, n), st.w);
      ChangeCheckExact(n, T.TlsParameters(s.instances[n].tls).value, s.clusters[n].spec);
    }
    hide T.BuildCluster, ActiveRestore, T.IssuerText, Allowed, T.TlsParameters, T.CertificateSecret,
         T.ValidateTlsChange;
  }

  lemma {:induction false} SourceRun(tr: seq<State>, steps: seq<Step>, n: string, u: nat, secret: string,
                                     issuer: Option<Issuer>, i: nat, j: nat)
    requires IsRun(tr, steps) && i <= j <= |steps| && SourceIs(tr[i], n, u, secret, issuer)
    ensures SourceIs(tr[j], n, u, secret, issuer)
  {
    hide Next, SourceIs;
    if i < j {
      SourceRun(tr, steps, n, u, secret, issuer, i, j - 1);
      SourceStep(tr[j - 1], steps[j - 1], n, u, secret, issuer);
    }
  }

  /** Every cluster has a certificate secret and an allowed issuer. */
  predicate Sourced(s: State, n: string) {
    n in s.clusters ==>
      && s.clusters[n].meta.uid < s.nextUid
      && s.clusters[n].spec.sslSecret != "" && Allowed(s.clusters[n].spec.issuer)
  }

  /** A new cluster uses the source that its Instance names. */
  lemma CreatedSource(s: State, st: Step, n: string)
    requires n !in s.clusters && n in Next(s, st).clusters
    ensures n in s.instances && T.TlsParameters(s.instances[n].tls).Ok?
    ensures Next(s, st).clusters[n].meta.uid < Next(s, st).nextUid
    ensures var tls, c := T.TlsParameters(s.instances[n].tls).value, Next(s, st).clusters[n].spec;
            && c.sslSecret == T.CertificateSecret(n, tls) && c.issuer == tls.issuer
            && c.sslSecret != "" && Allowed(c.issuer)
  {
    ClusterSteps(s, st, n);
    assert Get(Next(s, st).clusters, n) == Some(Next(s, st).clusters[n]);
    BuiltSource(n, s.instances[n], st.w);
    NormalisedAllowed(n, s.instances[n], CurrentSpec(s, n), st.w);
    SecretNonEmpty(n, T.TlsParameters(s.instances[n].tls).value);
    hide Next, T.BuildCluster, T.Validate, ActiveRestore, T.TlsParameters, T.CertificateSecret, Allowed;
  }

  lemma {:induction false} RunSourced(tr: seq<State>, steps: seq<Step>, n: string, i: nat)
    requires IsRun(tr, steps) && i <= |steps| && n !in tr[0].clusters
    ensures Sourced(tr[i], n)
  {
    if i > 0 {
      hide Next, Allowed;
      RunSourced(tr, steps, n, i - 1);
      var s, st := tr[i - 1], steps[i - 1];
      if n !in s.clusters {
        if n in Next(s, st).clusters { CreatedSource(s, st, n); }
      } else {
        var c := s.clusters[n];
        SourceStep(s, st, n, c.meta.uid, c.spec.sslSecret, c.spec.issuer);
        if n in Next(s, st).clusters { SameIdentity(s, st, n); }
      }
    }
  }

  lemma SameIdentity(s: State, st: Step, n: string)
    requires n in s.clusters && n in Next(s, st).clusters
    ensures Next(s, st).clusters[n].meta.uid == s.clusters[n].meta.uid
  {
    ClusterSteps(s, st, n);
    assert Get(Next(s, st).clusters, n) == Some(Next(s, st).clusters[n]);
    hide Next, T.BuildCluster, T.Validate, ActiveRestore;
  }

  /** As long as a cluster lives, in every run, it keeps its certificate secret and
      its issuer, whatever the users write into the Instance. */
  lemma SourceFixedForLife(tr: seq<State>, steps: seq<Step>, n: string, i: nat, j: nat)
    requires IsRun(tr, steps) && i <= j <= |steps| && n !in tr[0].clusters
    requires n in tr[i].clusters && n in tr[j].clusters && tr[j].clusters[n].meta.uid == tr[i].clusters[n].meta.uid
    ensures tr[j].clusters[n].spec.sslSecret == tr[i].clusters[n].spec.sslSecret
    ensures tr[j].clusters[n].spec.issuer == tr[i].clusters[n].spec.issuer
  {
    hide Next;
    RunSourced(tr, steps, n, i);
    var c := tr[i].clusters[n];
    SourceRun(tr, steps, n, c.meta.uid, c.spec.sslSecret, c.spec.issuer, i, j);
  }
}
