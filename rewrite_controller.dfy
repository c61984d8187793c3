/**
  The controller that makes WordPress accept the `deliver_to` query variable
  (RewriteController.php).
 */
module RewriteController {
  import opened WordPress

  const QueryVar := "deliver_to"

  /** init: the `query_vars` filter. */
  function InitHooks(): (hooks: seq<Hook>)
    ensures |hooks| == 1 && hooks[0].kind == Filter && hooks[0].tag == "query_vars"
    ensures hooks[0].callback == "add_query_vars"
  {
    [FilterHook("query_vars", "add_query_vars")]
  }

  /** add_query_vars: the list it is given, on which PHP's by-value arrays let
      it append `deliver_to` without affecting the caller's copy. Nothing is
      deduplicated: a list that already holds `deliver_to` gets a second copy. */
  method AddQueryVars(vars: seq<string>) returns (r: seq<string>)
    ensures |r| == |vars| + 1
    ensures r[..|vars|] == vars
    ensures r[|vars|] == QueryVar
    ensures multiset(r)[QueryVar] == multiset(vars)[QueryVar] + 1
    ensures forall v :: v != QueryVar ==> multiset(r)[v] == multiset(vars)[v]
  {
    r := vars;
    r := r + [QueryVar];
  }
}
