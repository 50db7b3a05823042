/**
  The effect that provider registrations have on the DI container, reduced
  to the part the config core relies on: named capabilities in a map, and
  group members in registration order. Resolution is reduced to reading a
  bag member's tag, as the container does, and looking up the capability or
  the group it names.
 */
module Container {
  import opened Wrappers
  import opened Reflect
  import opened StructTag

  /** How a provider is registered: under a name or into a group. */
  datatype Key = NameKey(name: string) | GroupKey(group: string)

  /** One fx.Provide(fx.Annotated{...}) of a constructor returning a capability. */
  datatype Entry<T> = Provide(key: Key, target: Unmarshal<T>)

  /** An fx.Option as the config core builds it: registrations, or a deferred error. */
  datatype FxOption<T> = Options(entries: seq<Entry<T>>) | ErrorOption(err: Error)

  /** Why applying an option fails. */
  datatype Failure = OptionError(err: Error) | DuplicateName(name: string)

  /** The registered capabilities. */
  datatype Registry<T> = Registry(named: map<string, Unmarshal<T>>, groups: map<string, seq<Unmarshal<T>>>)

  function EmptyRegistry<T>(): Registry<T>
  {
    Registry(map[], map[])
  }

  /** The members of a group, oldest first; an unknown group has none. */
  function Members<T>(r: Registry<T>, group: string): seq<Unmarshal<T>>
  {
    if group in r.groups then r.groups[group] else []
  }

  /** Registering one entry: a name may be taken once; a group member is appended. */
  function Register<T>(r: Registry<T>, e: Entry<T>): Result<Registry<T>, Failure>
  {
    match e.key
    case NameKey(n) =>
      if n in r.named then Err(DuplicateName(n)) else Ok(r.(named := r.named[n := e.target]))
    case GroupKey(g) => Ok(r.(groups := r.groups[g := Members(r, g) + [e.target]]))
  }

  /** Registering entries in order, stopping at the first failure. */
  function RegisterAll<T>(r: Registry<T>, es: seq<Entry<T>>): Result<Registry<T>, Failure>
    decreases |es|
  {
    if es == [] then Ok(r)
    else
      match Register(r, es[0])
      case Err(f) => Err(f)
      case Ok(r') => RegisterAll(r', es[1..])
  }

  /** Applying an option: an error option fails without registering anything. */
  function Apply<T>(r: Registry<T>, opt: FxOption<T>): Result<Registry<T>, Failure>
  {
    match opt
    case ErrorOption(e) => Err(OptionError(e))
    case Options(es) => RegisterAll(r, es)
  }

  /** Applying options in order, stopping at the first failure. */
  function ApplyAll<T>(r: Registry<T>, opts: seq<FxOption<T>>): Result<Registry<T>, Failure>
    decreases |opts|
  {
    if opts == [] then Ok(r)
    else
      match Apply(r, opts[0])
      case Err(f) => Err(f)
      case Ok(r') => ApplyAll(r', opts[1..])
  }

  /** The value the container injects into bag member `f`. It reads the member's `group`
      and `name` tag items with Go's tag reader. A non-empty group takes precedence: it is
      consumed as a list of capabilities and may not be combined with a name. Otherwise a
      capability slot gets the capability registered under its name. None when the container
      cannot supply the member: a missing name, or an unnamed capability, which the config
      core never provides. */
  function Resolve<T>(r: Registry<T>, f: Field): Option<Value<T>>
  {
    var group := Get(f.tag, "group");
    var name := Get(f.tag, "name");
    if group != "" then
      if f.typ == UnmarshalSliceType && name == "" then Some(UnmarshalSliceValue(Members(r, group))) else None
    else if f.typ == UnmarshalType && name != "" && name in r.named then Some(UnmarshalValue(r.named[name]))
    else None
  }
}
