/**
 * Shared fixtures of the deploy forms: the per-cluster default quotas, the
 * sample Deployment manifest filled in from a namespace and a cluster, and
 * a second copy of the demo user table.
 */
module MockData {
  import opened Options
  import opened Text
  import opened Session
  import LoginForm

  /** The quota a cluster grants; every amount is a decimal string. */
  datatype ClusterQuota = ClusterQuota(cpu: string, memory: string, storage: string, pvcs: string, nodeports: string)

  const ClusterDefaults: map<string, ClusterQuota> := map[
    "SIT" := ClusterQuota("2", "4", "20", "3", "2"),
    "SIT1" := ClusterQuota("2", "4", "20", "3", "2"),
    "UAT" := ClusterQuota("4", "8", "50", "5", "3"),
    "PRD" := ClusterQuota("8", "16", "100", "10", "5")
  ]

  /** Exactly four clusters, and SIT1 is configured like SIT. */
  lemma ClusterDefaultsShape()
    ensures ClusterDefaults.Keys == {"SIT", "SIT1", "UAT", "PRD"}
    ensures ClusterDefaults["SIT"] == ClusterDefaults["SIT1"]
  {
  }

  /** JavaScript's `s || fallback` on a string: the empty string is falsy. */
  function OrElse(s: string, fallback: string): (r: string)
    ensures s != "" ==> r == s
    ensures s == "" ==> r == fallback
  {
    if s == "" then fallback else s
  }

  /** The parts of the manifest that depend on the inputs. */
  datatype Manifest = Manifest(
    namespace: string, environment: string,
    limitCpu: string, limitMemory: string,
    requestCpu: string, requestMemory: string)

  /**
   * The fields `mockYamlTemplate` fills in, or `None` where the quota lookup
   * reads a name that is not one of the table's own keys.
   */
  function TemplateFields(namespace: Option<string>, selectedCluster: string, defaults: map<string, ClusterQuota>): (r: Option<Manifest>)
    ensures r.Some? <==> OrElse(selectedCluster, "SIT") in defaults
    ensures r.Some? ==> r.value.namespace == OrElse(namespace.GetOr(""), "default")
    ensures r.Some? ==> r.value.environment == OrElse(selectedCluster, "dev")
    ensures r.Some? ==> && r.value.limitCpu == defaults[OrElse(selectedCluster, "SIT")].cpu + "m"
                        && r.value.limitMemory == defaults[OrElse(selectedCluster, "SIT")].memory + "Gi"
    ensures r.Some? ==> r.value.requestCpu == "500m" && r.value.requestMemory == "1Gi"
  {
    var key := OrElse(selectedCluster, "SIT");
    if key !in defaults then None
    else
      var quota := defaults[key];
      Some(Manifest(
        OrElse(namespace.GetOr(""), "default"), OrElse(selectedCluster, "dev"),
        quota.cpu + "m", quota.memory + "Gi", "500m", "1Gi"))
  }

  /** With no cluster chosen the manifest is labelled 'dev' yet takes the SIT quota. */
  lemma EmptyClusterUsesSitQuota(namespace: Option<string>)
    ensures TemplateFields(namespace, "", ClusterDefaults).Some?
    ensures TemplateFields(namespace, "", ClusterDefaults).value.environment == "dev"
    ensures TemplateFields(namespace, "", ClusterDefaults).value.limitCpu == "2m"
    ensures TemplateFields(namespace, "", ClusterDefaults).value.limitMemory == "4Gi"
  {
    assert ClusterDefaults["SIT"].cpu + "m" == "2m";
    assert ClusterDefaults["SIT"].memory + "Gi" == "4Gi";
  }

  /** Among the real table's own keys, the template is defined exactly for no cluster and the four listed ones. */
  lemma TemplateDefinedFor(namespace: Option<string>, selectedCluster: string)
    ensures TemplateFields(namespace, selectedCluster, ClusterDefaults).Some? <==>
              selectedCluster in {"", "SIT", "SIT1", "UAT", "PRD"}
  {
    ClusterDefaultsShape();
  }

  /** The manifest's opening lines, up to the namespace. */
  const Preamble: string :=
    "apiVersion: apps/v1\n"
    + "kind: Deployment\n"
    + "metadata:\n"
    + "  name: example-deployment\n"

  /** The labels above the environment line. */
  const Labels: string :=
    "  labels:\n"
    + "    app: example\n"

  /** From the deployment spec to the `limits:` key. */
  const Spec: string :=
    "spec:\n"
    + "  replicas: 3\n"
    + "  strategy:\n"
    + "    type: RollingUpdate\n"
    + "    rollingUpdate:\n"
    + "      maxSurge: 1\n"
    + "      maxUnavailable: 0\n"
    + "  selector:\n"
    + "    matchLabels:\n"
    + "      app: example\n"
    + "  template:\n"
    + "    metadata:\n"
    + "      labels:\n"
    + "        app: example\n"
    + "      annotations:\n"
    + "        prometheus.io/scrape: \"true\"\n"
    + "        prometheus.io/port: \"8080\"\n"
    + "    spec:\n"
    + "      containers:\n"
    + "      - name: example-app\n"
    + "        image: nginx:1.14.2\n"
    + "        imagePullPolicy: Always\n"
    + "        ports:\n"
    + "        - name: http\n"
    + "          containerPort: 80\n"
    + "          protocol: TCP\n"
    + "        - name: metrics\n"
    + "          containerPort: 8080\n"
    + "          protocol: TCP\n"
    + "        env:\n"
    + "        - name: POD_NAME\n"
    + "          valueFrom:\n"
    + "            fieldRef:\n"
    + "              fieldPath: metadata.name\n"
    + "        - name: POD_NAMESPACE\n"
    + "          valueFrom:\n"
    + "            fieldRef:\n"
    + "              fieldPath: metadata.namespace\n"
    + "        resources:\n"
    + "          limits:\n"

  const RequestsKey: string := "          requests:\n"

  /** From the probes to the end of the manifest. */
  const Closing: string :=
    "        livenessProbe:\n"
    + "          httpGet:\n"
    + "            path: /health\n"
    + "            port: http\n"
    + "          initialDelaySeconds: 30\n"
    + "          periodSeconds: 10\n"
    + "          timeoutSeconds: 5\n"
    + "        readinessProbe:\n"
    + "          httpGet:\n"
    + "            path: /ready\n"
    + "            port: http\n"
    + "          initialDelaySeconds: 5\n"
    + "          periodSeconds: 10\n"
    + "          timeoutSeconds: 5\n"
    + "        volumeMounts:\n"
    + "        - name: config-volume\n"
    + "          mountPath: /etc/config\n"
    + "        - name: secret-volume\n"
    + "          mountPath: /etc/secrets\n"
    + "          readOnly: true\n"
    + "      volumes:\n"
    + "      - name: config-volume\n"
    + "        configMap:\n"
    + "          name: example-config\n"
    + "      - name: secret-volume\n"
    + "        secret:\n"
    + "          secretName: example-secret\n"
    + "      securityContext:\n"
    + "        runAsNonRoot: true\n"
    + "        runAsUser: 1000\n"
    + "      serviceAccountName: example-sa"

  /** A YAML line: the indented key, the value, a line break. */
  function Line(key: string, value: string): string {
    key + value + "\n"
  }

  function Quoted(value: string): string {
    "\"" + value + "\""
  }

  /** The manifest text with the fields filled in. */
  function ManifestText(m: Manifest): string {
    Layout(Preamble, Labels, Spec, RequestsKey, Closing, m)
  }

  /** The fixed text blocks with the field lines between them. */
  function Layout(preamble: string, labels: string, spec: string, requests: string, closing: string, m: Manifest): string {
    preamble + (Line("  namespace: ", m.namespace) + (labels + (Line("    environment: ", m.environment) +
    (spec + (Line("            cpu: ", Quoted(m.limitCpu)) + (Line("            memory: ", Quoted(m.limitMemory)) +
    (requests + (Line("            cpu: ", Quoted(m.requestCpu)) + (Line("            memory: ", Quoted(m.requestMemory)) +
    closing)))))))))
  }

  /** `mockYamlTemplate`: the manifest text, or `None` where the quota lookup fails. */
  function MockYamlTemplate(namespace: Option<string>, selectedCluster: string, defaults: map<string, ClusterQuota>): (r: Option<string>)
    ensures r.Some? <==> OrElse(selectedCluster, "SIT") in defaults
    ensures r.Some? ==> r.value == ManifestText(TemplateFields(namespace, selectedCluster, defaults).value)
  {
    match TemplateFields(namespace, selectedCluster, defaults)
    case None => None
    case Some(m) => Some(ManifestText(m))
  }

  /** The text carries the namespace and environment lines and both quoted CPU and memory limits. */
  lemma ManifestShowsFields(m: Manifest)
    ensures Includes(ManifestText(m), Line("  namespace: ", m.namespace))
    ensures Includes(ManifestText(m), Line("    environment: ", m.environment))
    ensures Includes(ManifestText(m), Line("            cpu: ", Quoted(m.limitCpu)))
    ensures Includes(ManifestText(m), Line("            memory: ", Quoted(m.limitMemory)))
  {
    LayoutShowsFields(Preamble, Labels, Spec, RequestsKey, Closing, m);
  }

  lemma LayoutShowsFields(preamble: string, labels: string, spec: string, requests: string, closing: string, m: Manifest)
    ensures var text := Layout(preamble, labels, spec, requests, closing, m);
            && Includes(text, Line("  namespace: ", m.namespace))
            && Includes(text, Line("    environment: ", m.environment))
            && Includes(text, Line("            cpu: ", Quoted(m.limitCpu)))
            && Includes(text, Line("            memory: ", Quoted(m.limitMemory)))
  {
    var ns, env := Line("  namespace: ", m.namespace), Line("    environment: ", m.environment);
    var cpu, mem := Line("            cpu: ", Quoted(m.limitCpu)), Line("            memory: ", Quoted(m.limitMemory));
    var afterMem := requests + (Line("            cpu: ", Quoted(m.requestCpu)) + (Line("            memory: ", Quoted(m.requestMemory)) + closing));
    var fromMem := mem + afterMem;
    var fromCpu := cpu + fromMem;
    var fromEnv := env + (spec + fromCpu);
    var fromNs := ns + (labels + fromEnv);
    assert Layout(preamble, labels, spec, requests, closing, m) == preamble + fromNs;

    PrefixIncluded(ns, labels + fromEnv);
    IncludedAfter(preamble, fromNs, ns);

    PrefixIncluded(env, spec + fromCpu);
    IncludedAfter(labels, fromEnv, env);
    IncludedAfter(ns, labels + fromEnv, env);
    IncludedAfter(preamble, fromNs, env);

    PrefixIncluded(cpu, fromMem);
    PrefixIncluded(mem, afterMem);
    IncludedAfter(cpu, fromMem, mem);
    IncludedAfter(spec, fromCpu, cpu);
    IncludedAfter(spec, fromCpu, mem);
    IncludedAfter(env, spec + fromCpu, cpu);
    IncludedAfter(env, spec + fromCpu, mem);
    IncludedAfter(labels, fromEnv, cpu);
    IncludedAfter(labels, fromEnv, mem);
    IncludedAfter(ns, labels + fromEnv, cpu);
    IncludedAfter(ns, labels + fromEnv, mem);
    IncludedAfter(preamble, fromNs, cpu);
    IncludedAfter(preamble, fromNs, mem);
  }

  /** The dialog's copy of the demo users: the same two accounts as the login form's, in the other order. */
  const Users: seq<User> := [
    User("user1", "user1", "user"),
    User("admin", "admin", "admin")
  ]

  /** Two accounts with distinct usernames, one 'user' and one 'admin'. */
  lemma UsersShape()
    ensures |Users| == 2 && Users[0].username != Users[1].username
    ensures Users[0].role == "user" && Users[1].role == "admin"
  {
  }

  /** Looking credentials up in either table finds the same account, so the order difference is invisible. */
  lemma {:induction false} UsersAgreeWithLoginForm(username: string, password: string)
    ensures LoginForm.Find(Users, username, password) == LoginForm.Find(LoginForm.Users, username, password)
  {
    var a, b := LoginForm.Find(Users, username, password), LoginForm.Find(LoginForm.Users, username, password);
    if a.Some? {
      assert a.value in LoginForm.Users;
    }
    if b.Some? {
      assert b.value in Users;
    }
  }
}
