/** The ticket storage of `ComponentService`: which cache adapter it uses, how
    the component verify ticket is stored and read, and the guard that stops
    a token request when no ticket is cached. */
module Component {
  import opened Wrappers
  import opened JsValues
  import MemoryCache
  import RedisAdapter

  const KEY_TICKET: string := "key_component_ticket"

  /** The two cache adapters the library ships. */
  datatype Adapter =
    | InMemory(cache: MemoryCache.MapCache)
    | Redis(redis: RedisAdapter.RedisCache)

  /** The objects whose state an adapter keeps. */
  function AdapterObjects(a: Adapter): set<object>
  {
    match a
    case InMemory(m) => {m}
    case Redis(r) => {r.store}
  }

  /** The value `get(key)` resolves to, given the adapter's current state. */
  function Read(a: Adapter, key: string): (v: Value)
    requires key != ""
    reads AdapterObjects(a)
    ensures a.InMemory? && key in a.cache.entries ==> v == a.cache.entries[key]
    ensures a.InMemory? && key !in a.cache.entries ==> v == Undefined
    ensures a.Redis? ==> Truthy(v)
    ensures var k := RedisAdapter.Namespaced(key);
      a.Redis? && v != EmptyObject ==> a.redis.store.online && k in a.redis.store.entries && a.redis.store.entries[k] == v
    ensures var k := RedisAdapter.Namespaced(key);
      a.Redis? && a.redis.store.online && k in a.redis.store.entries && Truthy(a.redis.store.entries[k])
      ==> v == a.redis.store.entries[k]
  {
    match a
    case InMemory(m) => MemoryCache.Lookup(m.entries, key)
    case Redis(r) => RedisAdapter.ReadThrough(r.store.entries, r.store.online, RedisAdapter.Namespaced(key))
  }

  /** A Redis-backed adapter never yields a falsy ticket: a missing ticket
      reads as `{}`, so the missing-ticket guard cannot fire with it. */
  lemma RedisTicketNeverFalsy(a: Adapter)
    requires a.Redis?
    ensures Truthy(Read(a, KEY_TICKET))
  {
  }

  /** An in-memory adapter without a ticket yields `undefined`, which the guard
      rejects. */
  lemma InMemoryMissingTicketFalsy(a: Adapter)
    requires a.InMemory? && KEY_TICKET !in a.cache.entries
    ensures !Truthy(Read(a, KEY_TICKET))
  {
  }

  datatype ComponentOptions = ComponentOptions(
    componentAppId: string,
    componentSecret: string,
    cacheAdapter: Option<Adapter>)

  /** The body of the `api_component_token` request. */
  datatype TokenRequest = TokenRequest(componentAppId: string, componentAppSecret: string, verifyTicket: Value)

  datatype ComponentError =
    | TicketNotFound   // Error('component ticket not found')
    | NoOptions        // TypeError reading a property of undefined options

  class ComponentService {
    var cacheAdapter: Adapter
    const options: Option<ComponentOptions>

    /** `new ComponentService(options)`: the field initialiser creates a
        `MapCache`, replaced by `options.cacheAdapter` when one is given. */
    constructor (options: Option<ComponentOptions>)
      ensures this.options == options
      ensures options.Some? && options.value.cacheAdapter.Some? ==>
        cacheAdapter == options.value.cacheAdapter.value
      ensures !(options.Some? && options.value.cacheAdapter.Some?) ==>
        cacheAdapter.InMemory? && fresh(cacheAdapter.cache) && cacheAdapter.cache.entries == map[]
    {
      var initial := new MemoryCache.MapCache();
      cacheAdapter := InMemory(initial);
      this.options := options;
      if options.Some? && options.value.cacheAdapter.Some? {
        cacheAdapter := options.value.cacheAdapter.value;
      }
    }

    /** The `cacheAdapter` setter: a missing (falsy) adapter keeps the current one. */
    method SetCacheAdapter(adapter: Option<Adapter>)
      modifies this
      ensures adapter.Some? ==> cacheAdapter == adapter.value
      ensures adapter.None? ==> cacheAdapter == old(cacheAdapter)
    {
      if adapter.Some? {
        cacheAdapter := adapter.value;
      }
    }

    /** `getTicket()`: reads the fixed ticket key through the adapter. */
    method GetTicket() returns (ticket: Value)
      ensures ticket == Read(cacheAdapter, KEY_TICKET)
    {
      match cacheAdapter {
        case InMemory(m) =>
          ticket := m.Get(KEY_TICKET);
        case Redis(r) =>
          var got := r.Get(KEY_TICKET);
          ticket := got.value;
      }
    }

    /** `setTicket(ticket)`: writes the ticket under the fixed key (a Redis
        write is not awaited, so its failure goes unnoticed). */
    method SetTicket(ticket: string)
      modifies AdapterObjects(cacheAdapter)
      ensures cacheAdapter.InMemory? ==>
        cacheAdapter.cache.entries == old(cacheAdapter.cache.entries)[KEY_TICKET := Str(ticket)]
      ensures cacheAdapter.Redis? && old(cacheAdapter.redis.store.online) ==>
        cacheAdapter.redis.store.entries ==
          old(cacheAdapter.redis.store.entries)[RedisAdapter.Namespaced(KEY_TICKET) := Str(ticket)] &&
        cacheAdapter.redis.store.ttls ==
          old(cacheAdapter.redis.store.ttls)[RedisAdapter.Namespaced(KEY_TICKET) := 0]
      ensures cacheAdapter.Redis? && !old(cacheAdapter.redis.store.online) ==>
        unchanged(cacheAdapter.redis.store)
      ensures cacheAdapter.Redis? ==> cacheAdapter.redis.store.online == old(cacheAdapter.redis.store.online)
      ensures Read(cacheAdapter, KEY_TICKET) ==
        if cacheAdapter.InMemory? || cacheAdapter.redis.store.online
        then (if cacheAdapter.InMemory? || ticket != "" then Str(ticket) else EmptyObject)
        else old(Read(cacheAdapter, KEY_TICKET))
    {
      match cacheAdapter {
        case InMemory(m) =>
          m.Set(KEY_TICKET, Str(ticket));
        case Redis(r) =>
          var _ := r.Set(KEY_TICKET, Str(ticket), None);
      }
    }

    /** `requestComponentToken()` up to the HTTP call: refuses when the cached
        ticket is falsy, otherwise builds the request body. */
    method RequestComponentToken() returns (r: Result<TokenRequest, ComponentError>)
      ensures !Truthy(Read(cacheAdapter, KEY_TICKET)) <==> r == Err(TicketNotFound)
      ensures Truthy(Read(cacheAdapter, KEY_TICKET)) && options.None? ==> r == Err(NoOptions)
      ensures Truthy(Read(cacheAdapter, KEY_TICKET)) && options.Some? ==>
        r == Ok(TokenRequest(options.value.componentAppId, options.value.componentSecret,
                             Read(cacheAdapter, KEY_TICKET)))
    {
      var ticket := GetTicket();
      if !Truthy(ticket) {
        return Err(TicketNotFound);
      }
      if options.None? {
        return Err(NoOptions);
      }
      r := Ok(TokenRequest(options.value.componentAppId, options.value.componentSecret, ticket));
    }
  }
  /** Writing a ticket and then reading it, as a caller of `setTicket` and
      `getTicket` does: the ticket comes back, except that Redis turns an
      empty ticket into `{}`; a store that was down keeps its old answer. */
  method TicketRoundTrip(s: ComponentService, ticket: string) returns (v: Value)
    modifies AdapterObjects(s.cacheAdapter)
    ensures s.cacheAdapter.InMemory? ==> v == Str(ticket)
    ensures s.cacheAdapter.Redis? && old(s.cacheAdapter.redis.store.online) ==>
      v == (if ticket != "" then Str(ticket) else EmptyObject)
    ensures s.cacheAdapter.Redis? && !old(s.cacheAdapter.redis.store.online) ==>
      v == old(Read(s.cacheAdapter, KEY_TICKET))
  {
    s.SetTicket(ticket);
    v := s.GetTicket();
  }
}
