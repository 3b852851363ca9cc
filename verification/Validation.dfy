/** What Validate accepts, written on the Instance and the secrets. */
module Validation {
  import opened Kube
  import opened Instances
  import T = Translation

  predicate GroupTopology(inst: Instance) {
    inst.topology == "" || inst.topology == "groupreplication"
  }

  predicate EnoughReplicas(c: Component) {
    c.replicas.None? || c.replicas.value >= 1
  }

  /** On group replication the orchestrator component is ignored. */
  predicate OrchestratorOk(inst: Instance) {
    GroupTopology(inst) || "orchestrator" !in inst.components ||
    var orchestrator := inst.components["orchestrator"];
    (orchestrator.ctype == "" || orchestrator.ctype == "orchestrator") && EnoughReplicas(orchestrator)
  }

  /** Async takes no router. */
  predicate ProxyOk(inst: Instance) {
    "proxy" !in inst.components ||
    var proxy := inst.components["proxy"];
    && (proxy.ctype == "" || proxy.ctype == "haproxy" || (proxy.ctype == "router" && inst.topology != "async"))
    && EnoughReplicas(proxy)
  }

  /** The issuer that counts: it has a name, and is an Issuer unless it says otherwise. */
  function IssuerOf(inst: Instance): Option<Issuer> {
    match inst.tls
    case TlsInput(Tls(_, Some(issuer))) =>
      if issuer.name == "" then None
      else Some(Issuer(if issuer.kind == "" then "Issuer" else issuer.kind, issuer.name))
    case _ => None
  }

  function CertificateOf(inst: Instance): string {
    match inst.tls
    case TlsInput(Tls(certificate, _)) => certificate
    case _ => ""
  }

  predicate IssuerOk(inst: Instance) {
    IssuerOf(inst).Some? ==> IssuerOf(inst).value.kind == "Issuer" || IssuerOf(inst).value.kind == "ClusterIssuer"
  }

  predicate OneSource(inst: Instance) {
    CertificateOf(inst) == "" || IssuerOf(inst).None?
  }

  predicate Filled(secret: map<string, string>, key: string) {
    key in secret && secret[key] != ""
  }

  predicate CertificateOk(inst: Instance, secrets: map<string, map<string, string>>) {
    CertificateOf(inst) == "" ||
    (CertificateOf(inst) in secrets &&
     var secret := secrets[CertificateOf(inst)];
     Filled(secret, "tls.crt") && Filled(secret, "tls.key") && Filled(secret, "ca.crt"))
  }

  function SourceSecret(name: string, inst: Instance): string {
    if CertificateOf(inst) == "" then name + "-ssl" else CertificateOf(inst)
  }

  /** A running cluster keeps its source. */
  predicate SourceKept(name: string, inst: Instance, current: Option<ClusterSpec>) {
    current.None? ||
    (&& (current.value.sslSecret == "" || current.value.sslSecret == SourceSecret(name, inst))
     && Text(current.value.issuer) == Text(IssuerOf(inst)))
  }

  function Text(issuer: Option<Issuer>): string {
    match issuer
    case None => "/"
    case Some(Issuer(kind, name)) => kind + "/" + name
  }

  /** Validate accepts exactly the Instances that pass every one of these. */
  lemma ValidateExact(name: string, inst: Instance, current: Option<ClusterSpec>, w: World)
    ensures T.Validate(name, inst, current, w).None? <==>
              && OrchestratorOk(inst) && ProxyOk(inst)
              && !inst.tls.MalformedTls? && IssuerOk(inst) && OneSource(inst)
              && CertificateOk(inst, w.secrets) && SourceKept(name, inst, current)
  {
    OrchestratorExact(inst);
    ProxyExact(inst);
    TlsExact(name, inst, current, w);
    hide T.ValidateOrchestrator, T.ValidateProxy, T.ValidateTls, OrchestratorOk, ProxyOk, IssuerOk, OneSource,
         CertificateOk, SourceKept;
  }

  lemma OrchestratorExact(inst: Instance)
    ensures T.ValidateOrchestrator(inst).None? <==> OrchestratorOk(inst)
  {
  }

  lemma ProxyExact(inst: Instance)
    ensures T.ValidateProxy(inst).None? <==> ProxyOk(inst)
  {
  }

  /** The normalised parameters. */
  lemma Normalised(inst: Instance)
    ensures if inst.tls.MalformedTls? then T.TlsParameters(inst.tls) == Err(MalformedParameters)
            else T.TlsParameters(inst.tls) == Ok(Tls(CertificateOf(inst), IssuerOf(inst)))
  {
  }

  lemma CertificateExact(inst: Instance, w: World)
    ensures CertificateOk(inst, w.secrets) <==>
              CertificateOf(inst) != "" ==> T.CertificateComplete(w.secrets, CertificateOf(inst))
  {
    var keys := T.CERTIFICATE_KEYS;
    assert keys[0] == "tls.crt" && keys[1] == "tls.key" && keys[2] == "ca.crt";
  }

  lemma TlsExact(name: string, inst: Instance, current: Option<ClusterSpec>, w: World)
    ensures T.ValidateTls(name, inst, current, w).None? <==>
              && !inst.tls.MalformedTls? && IssuerOk(inst) && OneSource(inst)
              && CertificateOk(inst, w.secrets) && SourceKept(name, inst, current)
  {
    Normalised(inst);
    CertificateExact(inst, w);
    hide T.TlsParameters, T.CertificateComplete, CertificateOk, IssuerOf, CertificateOf;
  }

  /** Which refusal it is, checked in this order. */
  lemma TlsRefusal(name: string, inst: Instance, current: Option<ClusterSpec>, w: World)
    ensures var r := T.ValidateTls(name, inst, current, w);
            if inst.tls.MalformedTls? then r == Some(MalformedParameters)
            else if !IssuerOk(inst) then r == Some(BadIssuerKind)
            else if !OneSource(inst) then r == Some(TwoTlsSources)
            else if !CertificateOk(inst, w.secrets) then r == Some(BadCertificate)
            else if !SourceKept(name, inst, current) then r == Some(TlsSourceChanged)
            else r.None?
  {
    Normalised(inst);
    CertificateExact(inst, w);
    hide T.TlsParameters, T.CertificateComplete, CertificateOk, IssuerOf, CertificateOf;
  }
}
