/**
  The parts of the WordPress host that the plugin talks to, reduced to what
  the plugin can observe: the escaping and date-formatting helpers (opaque
  functions), the hook table that add_action/add_filter append to, the
  response body that `echo` appends to, and the query object whose variables
  `pre_get_posts` callbacks may change.
 */
module WordPress {
  import Php

  datatype Option<T> = None | Some(value: T)

  /** Host library functions the plugin calls but does not define. */
  datatype Host = Host(
    escAttr: string -> string,    // esc_attr
    escUrl: string -> string,     // esc_url
    escXml: string -> string,     // esc_xml
    escHtml: string -> string,    // esc_html
    atomDate: string -> string    // mysql2date( DateTime::ATOM, ... )
  )

  datatype HookKind = Action | Filter

  /** One registration made by add_action or add_filter. `callback` names the
      plugin method registered. */
  datatype Hook = Hook(kind: HookKind, tag: string, callback: string, priority: int, acceptedArgs: int)

  /** add_action( $tag, $callback ) with WordPress's default priority and argument count. */
  function ActionHook(tag: string, callback: string): Hook {
    Hook(Action, tag, callback, 10, 1)
  }

  /** add_filter( $tag, $callback ) with WordPress's default priority and argument count. */
  function FilterHook(tag: string, callback: string): Hook {
    Hook(Filter, tag, callback, 10, 1)
  }

  /** WordPress's global table of hook registrations, in registration order. */
  class HookTable {
    var hooks: seq<Hook>

    constructor ()
      ensures hooks == []
    {
      hooks := [];
    }

    method Add(h: Hook)
      modifies this
      ensures hooks == old(hooks) + [h]
    {
      hooks := hooks + [h];
    }
  }

  /** The HTTP response body: one chunk per `echo` or per literal run of template text. */
  class Response {
    var chunks: seq<string>

    constructor ()
      ensures chunks == []
    {
      chunks := [];
    }

    method Echo(s: string)
      modifies this
      ensures chunks == old(chunks) + [s]
    {
      chunks := chunks + [s];
    }
  }

  /** A query variable's value: the plugin stores strings and integers. */
  datatype QueryValue = Str(s: string) | Int(n: int)

  /** PHP's boolean conversion of a query variable's value. */
  predicate QueryTruthy(v: QueryValue) {
    match v
    case Str(s) => Php.Truthy(s)
    case Int(n) => n != 0
  }

  /** The WP_Query object handed to `pre_get_posts`. */
  class WpQuery {
    var isMainQuery: bool
    var queryVars: map<string, QueryValue>

    constructor (isMainQuery: bool, queryVars: map<string, QueryValue>)
      ensures this.isMainQuery == isMainQuery && this.queryVars == queryVars
    {
      this.isMainQuery := isMainQuery;
      this.queryVars := queryVars;
    }

    /** WP_Query::get: the stored value, or the default '' when the variable is unset. */
    function Get(key: string): (v: QueryValue)
      reads this
      ensures key in queryVars ==> v == queryVars[key]
      ensures key !in queryVars ==> v == Str("")
    {
      if key in queryVars then queryVars[key] else Str("")
    }

    /** WP_Query::set. */
    method Set(key: string, value: QueryValue)
      modifies this
      ensures queryVars == old(queryVars)[key := value]
      ensures isMainQuery == old(isMainQuery)
    {
      queryVars := queryVars[key := value];
    }
  }
}
