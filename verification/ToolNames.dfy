/** The tools an investigation may call, under whatever prefix the agent host
    gives them. */
module ToolNames {
  const READ_ONLY_TOOLS: seq<string> := [
    "get_dashboard", "top_resources", "list_resources", "get_resource",
    "get_topology", "get_neighborhood", "get_events", "get_pod_logs",
    "diagnose", "list_namespaces", "get_changes", "get_cluster_audit",
    "list_helm_releases", "get_helm_release", "list_packages", "issues",
    "search", "get_subject_permissions", "query_prometheus", "discover_metrics",
    "get_prometheus_rules", "get_workload_logs", "get_cluster_upgrade_readiness",
    "get_cost", "get_rightsizing", "wait_for"]

  const WRITE_TOOLS: seq<string> := [
    "apply_resource", "patch_resource", "manage_workload",
    "manage_rollout", "manage_cronjob", "manage_node", "manage_gitops"]

  function TrimPrefix(s: string, prefix: string): string {
    if prefix <= s then s[|prefix|..] else s
  }

  function Normalize(tool: string): string {
    TrimPrefix(TrimPrefix(tool, "mcp__radar__"), "radar.")
  }

  /** A name is the same under every prefix an agent host gives it. */
  lemma {:induction false} PrefixesDoNotMatter(name: string)
    requires !("mcp__radar__" <= name) && !("radar." <= name)
    ensures Normalize(name) == name && Normalize("mcp__radar__" + name) == name
    ensures Normalize("radar." + name) == name && Normalize("mcp__radar__radar." + name) == name
  {
    var a, b := "mcp__radar__", "radar.";
    assert (a + name)[|a|..] == name && (b + name)[|b|..] == name;
    assert "mcp__radar__radar." + name == a + (b + name);
    assert (a + (b + name))[|a|..] == b + name;
    assert (b + name)[0] == 'r' && a[0] == 'm';
  }

  predicate IsReadOnly(tool: string) { Normalize(tool) in READ_ONLY_TOOLS }

  predicate IsWrite(tool: string) { Normalize(tool) in WRITE_TOOLS }
}
