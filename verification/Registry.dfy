/** The in-process handler registry shared by both backends. */
module Registry {
  import opened Jobs

  type HandlerId = nat

  /** Exactly one of the two shapes is set in every entry. */
  datatype Entry = Entry(plain: Option<HandlerId>, ctx: Option<HandlerId>)

  /** A call of RegisterHandler or RegisterHandlerCtx; fn may be nil. */
  datatype Attempt = Attempt(name: string, fn: Option<HandlerId>, withCtx: bool)

  predicate Legal(a: Attempt) { a.name != "" && a.fn.Some? }

  function EntryOf(a: Attempt): Entry {
    if a.withCtx then Entry(None, a.fn) else Entry(a.fn, None)
  }

  function Registered(m: map<string, Entry>, a: Attempt): map<string, Entry> {
    if Legal(a) && a.name !in m then m[a.name := EntryOf(a)] else m
  }

  function AfterAll(m: map<string, Entry>, attempts: seq<Attempt>): map<string, Entry>
    decreases |attempts|
  {
    if attempts == [] then m else AfterAll(Registered(m, attempts[0]), attempts[1..])
  }

  /** The first legal attempt for a name. */
  function FirstFor(attempts: seq<Attempt>, name: string): Option<Attempt> {
    if attempts == [] then None
    else if Legal(attempts[0]) && attempts[0].name == name then Some(attempts[0])
    else FirstFor(attempts[1..], name)
  }

  /** Over any sequence of registrations the first legal one for a name wins for ever,
      whichever method made it, and its entry has exactly one shape. */
  lemma {:induction false} FirstRegistrationWins(m: map<string, Entry>, attempts: seq<Attempt>, name: string)
    ensures var m' := AfterAll(m, attempts);
            if name in m then name in m' && m'[name] == m[name]
            else match FirstFor(attempts, name)
                 case None => name !in m'
                 case Some(a) => name in m' && (if a.withCtx then m'[name].ctx == a.fn && m'[name].plain.None?
                                                else m'[name].plain == a.fn && m'[name].ctx.None?)
    decreases |attempts|
  {
    if attempts != [] { FirstRegistrationWins(Registered(m, attempts[0]), attempts[1..], name); }
  }

  class HandlerRegistry {
    var m: map<string, Entry>

    /** Every entry belongs to a named job and has exactly one of the two shapes. */
    ghost predicate Valid()
      reads this
    {
      forall name | name in m :: name != "" && (m[name].plain.Some? <==> m[name].ctx.None?)
    }

    constructor ()
      ensures Valid() && m == map[]
    {
      m := map[];
    }

    method RegisterHandler(name: string, fn: Option<HandlerId>) returns (ok: bool)
      requires Valid()
      modifies this
      ensures Valid()
      ensures m == Registered(old(m), Attempt(name, fn, false))
      ensures ok <==> name != "" && fn.Some? && name !in old(m)
      ensures if ok then m.Keys == old(m).Keys + {name} && m[name].plain == fn && m[name].ctx.None? else m == old(m)
    {
      if name == "" || fn.None? || name in m { return false; }
      m := m[name := Entry(fn, None)];
      return true;
    }

    method RegisterHandlerCtx(name: string, fn: Option<HandlerId>) returns (ok: bool)
      requires Valid()
      modifies this
      ensures Valid()
      ensures m == Registered(old(m), Attempt(name, fn, true))
      ensures ok <==> name != "" && fn.Some? && name !in old(m)
      ensures if ok then m.Keys == old(m).Keys + {name} && m[name].ctx == fn && m[name].plain.None? else m == old(m)
    {
      if name == "" || fn.None? || name in m { return false; }
      m := m[name := Entry(None, fn)];
      return true;
    }

    /** hasRegisteredHandler: every name that was ever registered has a handler to call. */
    method HasRegisteredHandler(name: string) returns (b: bool)
      requires Valid()
      ensures b <==> name in m
    {
      if name !in m { return false; }
      b := m[name].plain.Some? || m[name].ctx.Some?;
    }
  }
}
