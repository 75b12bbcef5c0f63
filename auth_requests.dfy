/**
 * `AuthHttp`: every request goes out with the configured authorization header, after the global
 * headers have been written into the per-call options.  The `Http` transport is a function from
 * the request as sent to its outcome, and `sent` records every request handed to it.
 */
module AuthRequests {
  import opened Wrappers
  import opened Storage
  import opened Configuration

  type HeaderTable = map<string, string>

  datatype RequestMethod = Get | Post | Put | Delete | Patch | Head | Options

  /** The `{body, method, url}` object the verb helpers build. */
  datatype RequestArgs = RequestArgs(body: string, verb: RequestMethod, url: string)

  /** A request as the transport receives it. */
  datatype Outgoing = Outgoing(args: RequestArgs, headers: HeaderTable)

  datatype Response = Response(status: int, body: string)

  datatype HttpError =
    | AuthHttpError(message: string)
    | TransportError(reason: string)

  const NoTokenMessage := "No token present or has expired"

  // ---------------------------------------------------------------------------------------------
  // The verb helpers' request records: `get`, `delete`, `head` and `options` send an empty body.

  function GetArgs(url: string): RequestArgs { RequestArgs("", Get, url) }
  function PostArgs(url: string, body: string): RequestArgs { RequestArgs(body, Post, url) }
  function PutArgs(url: string, body: string): RequestArgs { RequestArgs(body, Put, url) }
  function DeleteArgs(url: string): RequestArgs { RequestArgs("", Delete, url) }
  function PatchArgs(url: string, body: string): RequestArgs { RequestArgs(body, Patch, url) }
  function HeadArgs(url: string): RequestArgs { RequestArgs("", Head, url) }
  function OptionsArgs(url: string): RequestArgs { RequestArgs("", Options, url) }

  // ---------------------------------------------------------------------------------------------
  // The header rules, on values.

  /** The table after `set(entry.name, entry.value)` for each entry, in order. */
  function ApplyEntries(table: HeaderTable, entries: seq<HeaderEntry>): HeaderTable {
    if entries == [] then table
    else
      var last := entries[|entries| - 1];
      ApplyEntries(table, entries[..|entries| - 1])[last.name := last.value]
  }

  /** The table after the authorization header is set. */
  function Authorized(cfg: Config, table: HeaderTable, token: string): HeaderTable {
    table[cfg.headerName := cfg.headerPrefix + token]
  }

  /** The headers a verb helper sends: the caller's, then the global ones, then the authorization. */
  function OutgoingHeaders(cfg: Config, caller: HeaderTable, token: string): HeaderTable {
    Authorized(cfg, ApplyEntries(caller, cfg.globalHeaders), token)
  }

  /** A header name is set by the entries when some entry carries it. */
  predicate Names(entries: seq<HeaderEntry>, name: string) {
    exists i :: 0 <= i < |entries| && entries[i].name == name
  }

  /** The entries set exactly the names of the old table and their own names. */
  lemma {:induction false} ApplyEntriesKeys(table: HeaderTable, entries: seq<HeaderEntry>, name: string)
    ensures name in ApplyEntries(table, entries) <==> name in table || Names(entries, name)
  {
    if entries != [] {
      var init := entries[..|entries| - 1];
      ApplyEntriesKeys(table, init, name);
      if Names(init, name) {
        var i :| 0 <= i < |init| && init[i].name == name;
        assert entries[i].name == name;
      }
      if Names(entries, name) && entries[|entries| - 1].name != name {
        var i :| 0 <= i < |entries| && entries[i].name == name;
        assert init[i].name == name;
      }
    }
  }

  /** On a name several entries carry, the last of them wins. */
  lemma {:induction false} ApplyEntriesLastWins(table: HeaderTable, entries: seq<HeaderEntry>, i: nat)
    requires i < |entries|
    requires forall j :: i < j < |entries| ==> entries[j].name != entries[i].name
    ensures entries[i].name in ApplyEntries(table, entries)
    ensures ApplyEntries(table, entries)[entries[i].name] == entries[i].value
  {
    if i < |entries| - 1 {
      var init := entries[..|entries| - 1];
      ApplyEntriesLastWins(table, init, i);
    }
  }

  /** A header no entry names keeps its old value, or stays absent. */
  lemma {:induction false} ApplyEntriesUntouched(table: HeaderTable, entries: seq<HeaderEntry>, name: string)
    requires !Names(entries, name)
    ensures name in ApplyEntries(table, entries) <==> name in table
    ensures name in table ==> ApplyEntries(table, entries)[name] == table[name]
  {
    if entries != [] {
      var init := entries[..|entries| - 1];
      ApplyEntriesUntouched(table, init, name);
    }
  }

  /** The authorization header is set last, so it replaces a caller's or a global header of the same name. */
  lemma AuthorizationWins(cfg: Config, caller: HeaderTable, token: string)
    ensures cfg.headerName in OutgoingHeaders(cfg, caller, token)
    ensures OutgoingHeaders(cfg, caller, token)[cfg.headerName] == cfg.headerPrefix + token
  {
  }

  /** Other than the authorization header, a global header replaces the caller's header of that name. */
  lemma GlobalHeaderWins(cfg: Config, caller: HeaderTable, token: string, i: nat)
    requires i < |cfg.globalHeaders| && cfg.globalHeaders[i].name != cfg.headerName
    requires forall j :: i < j < |cfg.globalHeaders| ==> cfg.globalHeaders[j].name != cfg.globalHeaders[i].name
    ensures cfg.globalHeaders[i].name in OutgoingHeaders(cfg, caller, token)
    ensures OutgoingHeaders(cfg, caller, token)[cfg.globalHeaders[i].name] == cfg.globalHeaders[i].value
  {
    ApplyEntriesLastWins(caller, cfg.globalHeaders, i);
  }

  /** A caller's header that neither a global entry nor the authorization header names goes out unchanged. */
  lemma CallerHeaderKept(cfg: Config, caller: HeaderTable, token: string, name: string)
    requires name in caller && name != cfg.headerName && !Names(cfg.globalHeaders, name)
    ensures name in OutgoingHeaders(cfg, caller, token)
    ensures OutgoingHeaders(cfg, caller, token)[name] == caller[name]
  {
    ApplyEntriesUntouched(caller, cfg.globalHeaders, name);
  }

  /** With prefix `"Bar"` and token `"abc"`, the header is `Authorization: Bar abc`. */
  lemma BarPrefixHeader(caller: HeaderTable)
    ensures var cfg := Resolve(Some(NoOverrides.(headerPrefix := Some("Bar"))));
      OutgoingHeaders(cfg, caller, "abc")["Authorization"] == "Bar abc"
  {
    var cfg := Resolve(Some(NoOverrides.(headerPrefix := Some("Bar"))));
    AuthorizationWins(cfg, caller, "abc");
  }

  // ---------------------------------------------------------------------------------------------
  // The mutable objects.

  /** `Headers`: a table of header values that `Set` updates in place. */
  class Headers {
    var table: HeaderTable

    constructor (init: HeaderTable)
      ensures table == init
    {
      table := init;
    }

    /** `headers.set(name, value)`: replaces any earlier value under that name. */
    method Set(name: string, value: string)
      modifies this
      ensures table == old(table)[name := value]
    {
      table := table[name := value];
    }
  }

  /** Per-call request options, reduced to their (possibly missing) header table. */
  class RequestOptions {
    var headers: Headers?

    constructor (headers: Headers?)
      ensures this.headers == headers
    {
      this.headers := headers;
    }
  }

  /** The headers' objects an options value may alias. */
  function HeadersOf(options: RequestOptions?): set<object>
    reads options
  {
    if options != null && options.headers != null then {options.headers} else {}
  }

  /** The header table of an options value; missing options or headers read as empty. */
  function TableOf(options: RequestOptions?): HeaderTable
    reads options, HeadersOf(options)
  {
    if options != null && options.headers != null then options.headers.table else map[]
  }

  /** `Request`, built from a request record and options; it holds its own copy of the headers. */
  class Request {
    const args: RequestArgs
    const headers: Headers

    constructor (args: RequestArgs, options: RequestOptions)
      ensures this.args == args && fresh(headers) && headers.table == TableOf(options)
    {
      this.args := args;
      headers := new Headers(TableOf(options));
    }
  }

  /** The request as it leaves, headers included. */
  function Snapshot(req: Request): Outgoing
    reads req.headers
  {
    Outgoing(req.args, req.headers.table)
  }

  /** The first argument of `request`: a URL or a prepared `Request`. */
  datatype Target = Url(url: string) | Req(req: Request)

  class AuthHttp {
    const config: Config
    const transport: Outgoing -> Result<Response, HttpError>
    ghost var sent: seq<Outgoing>

    /** `new AuthHttp(options, http)`: the configuration is taken once, from `options.getConfig()`. */
    constructor (options: AuthConfig, transport: Outgoing -> Result<Response, HttpError>)
      requires options.Valid()
      ensures config == options.GetConfig() && this.transport == transport && sent == []
    {
      config := options.GetConfig();
      this.transport := transport;
      sent := [];
    }

    /**
     * `setGlobalHeaders(headers, request)`: creates a header table on the options if they have
     * none, then sets each entry into it, in order.
     */
    method SetGlobalHeaders(entries: seq<HeaderEntry>, request: RequestOptions)
      modifies request, request.headers
      ensures request.headers != null
      ensures old(request.headers) != null ==> request.headers == old(request.headers)
      ensures old(request.headers) == null ==> fresh(request.headers)
      ensures request.headers.table == ApplyEntries(old(TableOf(request)), entries)
    {
      if request.headers == null {
        request.headers := new Headers(map[]);
      }
      var h := request.headers;
      ghost var start := h.table;
      for i := 0 to |entries|
        invariant request.headers == h
        invariant h.table == ApplyEntries(start, entries[..i])
      {
        assert entries[..i + 1][..i] == entries[..i];
        h.Set(entries[i].name, entries[i].value);
      }
      assert entries[..|entries|] == entries;
    }

    /**
     * `mergeOptions(providedOpts, defOpts)`: the global headers go into the provided options
     * (`globalHeaders` is an array, hence always truthy), and the merged options carry the
     * provided header table.
     */
    method MergeOptions(provided: RequestOptions) returns (merged: RequestOptions)
      modifies provided, provided.headers
      ensures fresh(merged) && merged.headers == provided.headers && merged.headers != null
      ensures old(provided.headers) != null ==> provided.headers == old(provided.headers)
      ensures old(provided.headers) == null ==> fresh(provided.headers)
      ensures provided.headers.table == ApplyEntries(old(TableOf(provided)), config.globalHeaders)
    {
      SetGlobalHeaders(config.globalHeaders, provided);
      merged := new RequestOptions(provided.headers);
    }

    /**
     * `requestWithToken(req, token)`: without a token the outcome is an `AuthHttpError` and
     * nothing is sent or changed; with one, the authorization header is set on the request and
     * the request goes to the transport exactly once, whose outcome is returned as is.
     */
    method RequestWithToken(req: Request, token: Option<string>) returns (r: Result<Response, HttpError>)
      modifies this`sent, req.headers
      ensures token.None? ==>
                && r == Failure(AuthHttpError(NoTokenMessage))
                && sent == old(sent)
                && req.headers.table == old(req.headers.table)
      ensures token.Some? ==>
                && req.headers.table == Authorized(config, old(req.headers.table), token.value)
                && sent == old(sent) + [Snapshot(req)]
                && r == transport(Snapshot(req))
    {
      if token.None? {
        return Failure(AuthHttpError(NoTokenMessage));
      }
      req.headers.Set(config.headerName, config.headerPrefix + token.value);
      sent := sent + [Snapshot(req)];
      r := transport(Snapshot(req));
    }

    /**
     * `request(url, options)`: a URL is sent as a GET; a prepared request is sent with the token
     * the configured getter reads from `store`, and no global headers.
     */
    method Request(target: Target, options: RequestOptions?, store: Store) returns (r: Result<Response, HttpError>)
      modifies this`sent, if target.Url? then HeadersOf(options) else {}, if target.Req? then {target.req.headers} else {}
      decreases if target.Url? then 3 else 0
      ensures target.Url? ==> Sends(old(sent), sent, r, GetArgs(target.url), old(TableOf(options)), store)
      ensures target.Url? ==> AliasedHeadersUpdated(options, old(TableOf(options)))
      ensures target.Req? && target.req.headers !in HeadersOf(options) ==>
                TableOf(options) == old(TableOf(options))
      ensures target.Req? ==>
                var token := TokenOf(config.tokenGetter, store);
                && (token.None? ==>
                      r == Failure(AuthHttpError(NoTokenMessage)) && sent == old(sent)
                      && target.req.headers.table == old(target.req.headers.table))
                && (token.Some? ==>
                      && target.req.headers.table == Authorized(config, old(target.req.headers.table), token.value)
                      && sent == old(sent) + [Snapshot(target.req)]
                      && r == transport(Snapshot(target.req)))
    {
      match target
      case Url(url) =>
        r := Get(url, options, store);
      case Req(req) =>
        var token := TokenOf(config.tokenGetter, store);
        r := RequestWithToken(req, token);
    }

    /**
     * What a verb helper promises: without a token nothing is sent; with one, exactly the
     * request `args` goes out, with the caller's headers, the global headers and the
     * authorization header, and the transport's outcome is returned.
     */
    ghost predicate Sends(before: seq<Outgoing>, after: seq<Outgoing>, r: Result<Response, HttpError>,
                          args: RequestArgs, caller: HeaderTable, store: Store)
    {
      var token := TokenOf(config.tokenGetter, store);
      && (token.None? ==> r == Failure(AuthHttpError(NoTokenMessage)) && after == before)
      && (token.Some? ==>
            var out := Outgoing(args, OutgoingHeaders(config, caller, token.value));
            after == before + [out] && r == transport(out))
    }

    /** The caller's own header table, when it passed one, has received the global headers. */
    ghost predicate AliasedHeadersUpdated(options: RequestOptions?, before: HeaderTable)
      reads options, HeadersOf(options)
    {
      options != null && options.headers != null ==>
        options.headers.table == ApplyEntries(before, config.globalHeaders)
    }

    /**
     * `requestHelper(requestArgs, additionalOptions)`: the options take the caller's headers
     * (`merge`), the global headers are written into them, a `Request` is built and sent.
     */
    method RequestHelper(args: RequestArgs, additional: RequestOptions?, store: Store)
      returns (r: Result<Response, HttpError>)
      modifies this`sent, HeadersOf(additional)
      decreases 1
      ensures Sends(old(sent), sent, r, args, old(TableOf(additional)), store)
      ensures AliasedHeadersUpdated(additional, old(TableOf(additional)))
    {
      var options := new RequestOptions(if additional != null then additional.headers else null);
      var merged := MergeOptions(options);
      var req := new Request(args, merged);
      r := Request(Req(req), null, store);
    }

    method Get(url: string, options: RequestOptions?, store: Store) returns (r: Result<Response, HttpError>)
      modifies this`sent, HeadersOf(options)
      decreases 2
      ensures Sends(old(sent), sent, r, GetArgs(url), old(TableOf(options)), store)
      ensures AliasedHeadersUpdated(options, old(TableOf(options)))
    {
      r := RequestHelper(GetArgs(url), options, store);
    }

    method Post(url: string, body: string, options: RequestOptions?, store: Store)
      returns (r: Result<Response, HttpError>)
      modifies this`sent, HeadersOf(options)
      ensures Sends(old(sent), sent, r, PostArgs(url, body), old(TableOf(options)), store)
      ensures AliasedHeadersUpdated(options, old(TableOf(options)))
    {
      r := RequestHelper(PostArgs(url, body), options, store);
    }

    method Put(url: string, body: string, options: RequestOptions?, store: Store)
      returns (r: Result<Response, HttpError>)
      modifies this`sent, HeadersOf(options)
      ensures Sends(old(sent), sent, r, PutArgs(url, body), old(TableOf(options)), store)
      ensures AliasedHeadersUpdated(options, old(TableOf(options)))
    {
      r := RequestHelper(PutArgs(url, body), options, store);
    }

    method Delete(url: string, options: RequestOptions?, store: Store) returns (r: Result<Response, HttpError>)
      modifies this`sent, HeadersOf(options)
      ensures Sends(old(sent), sent, r, DeleteArgs(url), old(TableOf(options)), store)
      ensures AliasedHeadersUpdated(options, old(TableOf(options)))
    {
      r := RequestHelper(DeleteArgs(url), options, store);
    }

    method Patch(url: string, body: string, options: RequestOptions?, store: Store)
      returns (r: Result<Response, HttpError>)
      modifies this`sent, HeadersOf(options)
      ensures Sends(old(sent), sent, r, PatchArgs(url, body), old(TableOf(options)), store)
      ensures AliasedHeadersUpdated(options, old(TableOf(options)))
    {
      r := RequestHelper(PatchArgs(url, body), options, store);
    }

    method Head(url: string, options: RequestOptions?, store: Store) returns (r: Result<Response, HttpError>)
      modifies this`sent, HeadersOf(options)
      ensures Sends(old(sent), sent, r, HeadArgs(url), old(TableOf(options)), store)
      ensures AliasedHeadersUpdated(options, old(TableOf(options)))
    {
      r := RequestHelper(HeadArgs(url), options, store);
    }

    method Options(url: string, options: RequestOptions?, store: Store) returns (r: Result<Response, HttpError>)
      modifies this`sent, HeadersOf(options)
      ensures Sends(old(sent), sent, r, OptionsArgs(url), old(TableOf(options)), store)
      ensures AliasedHeadersUpdated(options, old(TableOf(options)))
    {
      r := RequestHelper(OptionsArgs(url), options, store);
    }
  }
}
