/**
  Configuration providers and the configuration field extractor: a decoding
  capability is registered under a name derived from its file and into one
  shared group; an extractor picks a capability by that name or takes the
  group's most recent member, decodes a single tagged field with it, and is
  itself registered through WithAnnotated.
 */
module ConfigField {
  import opened Wrappers
  import opened Reflect
  import opened StructTag
  import opened Annotations
  import opened Adapter
  import opened Container

  const ConfigFileAnnotationPrefix := "github.com/joesonw/fxx.ProvideConfigFile/"
  const ConfigFileGroup := "github.com/joesonw/fxx.ProvideConfigFile"

  /** The name a capability for `file` is registered under. */
  function ConfigName(file: string): string
  {
    ConfigFileAnnotationPrefix + file
  }

  /** Different files give different names. */
  lemma ConfigNameInjective(a: string, b: string)
    requires ConfigName(a) == ConfigName(b)
    ensures a == b
  {
    assert a == ConfigName(a)[|ConfigFileAnnotationPrefix|..];
    assert b == ConfigName(b)[|ConfigFileAnnotationPrefix|..];
  }

  // ----- Registration -----

  /** provideConfigFileOptions: the record the disk helper's options update. */
  class ProvideConfigFileOptions {
    var name: string

    constructor (file: string)
      ensures name == file
    {
      name := file;
    }
  }

  /** A ProvideConfigFileOption; ProvideConfigFileWithName(name) is its only kind. */
  datatype ProvideConfigFileOption = ProvideConfigFileWithName(name: string)
  {
    /** Running the option closure on the record. */
    method ApplyTo(o: ProvideConfigFileOptions)
      modifies o
      ensures o.name == name
    {
      o.name := name;
    }
  }

  /** The name the disk helper registers under: the path, unless an option renames it,
      in which case the last option wins. */
  function RegisteredName(file: string, options: seq<ProvideConfigFileOption>): string
  {
    if options == [] then file else options[|options| - 1].name
  }

  /** The option loop of the disk helper. */
  method ResolveProvideOptions(file: string, options: seq<ProvideConfigFileOption>) returns (name: string)
    ensures name == RegisteredName(file, options)
  {
    var o := new ProvideConfigFileOptions(file);
    for i := 0 to |options|
      invariant o.name == RegisteredName(file, options[..i])
    {
      options[i].ApplyTo(o);
      assert options[..i + 1][i] == options[i];
    }
    assert options[..|options|] == options;
    name := o.name;
  }

  /** ProvideConfig(file, u): `u` provided under the file's name and into the shared group. */
  function ProvideConfig<T>(file: string, u: Unmarshal<T>): (opt: FxOption<T>)
    ensures opt.Options?
    ensures Provide(NameKey(ConfigName(file)), u) in opt.entries && Provide(GroupKey(ConfigFileGroup), u) in opt.entries
    ensures forall e :: e in opt.entries ==> e == Provide(NameKey(ConfigName(file)), u) || e == Provide(GroupKey(ConfigFileGroup), u)
  {
    Options([Provide(NameKey(ConfigName(file)), u), Provide(GroupKey(ConfigFileGroup), u)])
  }

  /** Applying ProvideConfig(file, u) maps the file's name to `u` and appends `u` to the
      shared group, leaving everything else as it was; a name already taken is a conflict. */
  lemma ProvideConfigEffect<T>(r: Registry<T>, file: string, u: Unmarshal<T>)
    ensures ConfigName(file) in r.named ==>
      Apply(r, ProvideConfig(file, u)) == Err(DuplicateName(ConfigName(file)))
    ensures ConfigName(file) !in r.named ==>
      Apply(r, ProvideConfig(file, u)) ==
        Ok(Registry(r.named[ConfigName(file) := u], r.groups[ConfigFileGroup := Members(r, ConfigFileGroup) + [u]]))
  {
    var n := ConfigName(file);
    var es := ProvideConfig(file, u).entries;
    assert es[1..] == [Provide(GroupKey(ConfigFileGroup), u)];
    assert es[1..][1..] == [];
    if n !in r.named {
      var r1 := r.(named := r.named[n := u]);
      assert Register(r, es[0]) == Ok(r1);
      assert Members(r1, ConfigFileGroup) == Members(r, ConfigFileGroup);
      var r2 := Registry(r.named[n := u], r.groups[ConfigFileGroup := Members(r, ConfigFileGroup) + [u]]);
      assert Register(r1, es[1]) == Ok(r2);
      assert RegisterAll(r2, es[1..][1..]) == Ok(r2);
      assert RegisterAll(r1, es[1..]) == Ok(r2);
    }
  }

  /** The capability the disk helper registers: the decoder applied to the bytes read at registration. */
  function FileUnmarshal<T>(decoder: (Bytes, Type) -> Decoded<T>, bytes: Bytes): Unmarshal<T>
  {
    Unmarshal(t => decoder(bytes, t))
  }

  /** provideConfigFileFromDisk, with the result of reading the file as an input. */
  method ProvideConfigFileFromDisk<T>(file: string, decoder: (Bytes, Type) -> Decoded<T>,
                                      options: seq<ProvideConfigFileOption>, read: ReadResult)
    returns (opt: FxOption<T>)
    ensures read.ReadError? ==> opt == ErrorOption(ReadFailed(file, read.cause))
    ensures read.ReadOk? ==> opt == ProvideConfig(RegisteredName(file, options), FileUnmarshal(decoder, read.bytes))
  {
    if read.ReadError? {
      return ErrorOption(ReadFailed(file, read.cause));
    }
    var name := ResolveProvideOptions(file, options);
    opt := ProvideConfig(name, FileUnmarshal(decoder, read.bytes));
  }

  // ----- Extraction -----

  /** extractConfigFieldOptions: the record the extractor's options update. */
  class ExtractConfigFieldOptions {
    var file: Option<string>

    constructor ()
      ensures file == None
    {
      file := None;
    }
  }

  /** An ExtractConfigFieldOption; ExtractConfigFieldFromFile(file) is its only kind. */
  datatype ExtractConfigFieldOption = ExtractConfigFieldFromFile(file: string)
  {
    /** Running the option closure on the record. */
    method ApplyTo(o: ExtractConfigFieldOptions)
      modifies o
      ensures o.file == Some(file)
    {
      o.file := Some(file);
    }
  }

  /** The file an extractor reads from: None (the whole group) unless an option names one,
      in which case the last option wins. */
  function SourceFile(options: seq<ExtractConfigFieldOption>): Option<string>
  {
    if options == [] then None else Some(options[|options| - 1].file)
  }

  /** The option loop of the extractor. */
  method ResolveExtractOptions(options: seq<ExtractConfigFieldOption>) returns (file: Option<string>)
    ensures file == SourceFile(options)
  {
    var o := new ExtractConfigFieldOptions();
    for i := 0 to |options|
      invariant o.file == SourceFile(options[..i])
    {
      options[i].ApplyTo(o);
      assert options[..i + 1][i] == options[i];
    }
    assert options[..|options|] == options;
    file := o.file;
  }

  /** The one annotation the extractor's input is requested with. */
  function RequestAnnotation(file: Option<string>): Annotation
  {
    match file
    case Some(f) => NameAnnotation(ConfigName(f))
    case None => GroupAnnotation(ConfigFileGroup)
  }

  /** The type of the extractor's one input: one capability, or the group's list. */
  function RequestType(file: Option<string>): Type
  {
    if file.Some? then UnmarshalType else UnmarshalSliceType
  }

  /** The record decoded into: one field `Config` of the requested type, tagged with `tag`. */
  function ConfigRecord(tag: string, returnType: Type): Type
  {
    StructType([Field("Config", false, returnType, tag)])
  }

  /** The group member to decode with: the last, most recently registered one. */
  function SelectFromGroup<T>(us: seq<Unmarshal<T>>): (r: Result<Unmarshal<T>, Error>)
    ensures r.Err? <==> us == []
    ensures r.Err? ==> r.error == NoConfigFiles
    ensures r.Ok? ==> us == us[..|us| - 1] + [r.value]
  {
    if us == [] then Err(NoConfigFiles) else Ok(us[|us| - 1])
  }

  /** Running the chosen capability against a fresh record and returning (field, error). */
  function DecodeInto<T>(u: Unmarshal<T>, tag: string, returnType: Type): (results: seq<Value<T>>)
    ensures |results| == 2
    ensures results[1] == NilError ==> results[0].ConfigValue?
    ensures results[1] != NilError ==> results[0] == Zero(returnType) && results[1].ErrorValue? && results[1].err.UnmarshalFailed?
  {
    match u.decode(ConfigRecord(tag, returnType))
    case DecodeError(cause) => [Zero(returnType), ErrorValue(UnmarshalFailed(cause))]
    case Decoded(v) => [ConfigValue(v), NilError]
  }

  /** The extractor's body. An argument of the wrong kind would make Go's type
      assertion panic; that yields no results here, and the container never supplies one. */
  function Extract<T>(byName: bool, tag: string, returnType: Type, args: seq<Value<T>>): (results: seq<Value<T>>)
    ensures results == [] <==>
      |args| != 1 || (byName && !args[0].UnmarshalValue?) || (!byName && !args[0].UnmarshalSliceValue?)
    ensures results != [] ==> |results| == 2 && (results[1] == NilError ==> results[0].ConfigValue?)
    ensures results != [] && results[1] != NilError ==> results[0] == Zero(returnType) && results[1].ErrorValue?
    ensures results != [] && results[1] != NilError && results[1].err != NoConfigFiles ==> results[1].err.UnmarshalFailed?
    ensures results != [] && results[1] == ErrorValue(NoConfigFiles) ==> !byName && args[0].us == []
  {
    if |args| != 1 then []
    else if byName then
      if args[0].UnmarshalValue? then DecodeInto(args[0].u, tag, returnType) else []
    else if args[0].UnmarshalSliceValue? then
      match SelectFromGroup(args[0].us)
      case Err(e) => [Zero(returnType), ErrorValue(e)]
      case Ok(u) => DecodeInto(u, tag, returnType)
    else []
  }

  /** The extractor's body as a function value. */
  function ExtractorBody<T>(tag: string, returnType: Type, file: Option<string>): seq<Value<T>> -> seq<Value<T>>
  {
    args => Extract(file.Some?, tag, returnType, args)
  }

  /** The extractor function before it is adapted: one input, results (value, error). */
  function ExtractorTarget<T>(tag: string, returnType: Type, file: Option<string>): Target<T>
  {
    FuncTarget([RequestType(file)], [returnType, ErrorType], ExtractorBody(tag, returnType, file))
  }

  /** The function ExtractConfigField returns: the extractor adapted with its one annotation. */
  function Extractor<T>(tag: string, returnType: Type, file: Option<string>): FuncValue<T>
  {
    Adapt([RequestAnnotation(file)], ExtractorTarget(tag, returnType, file))
  }

  /** ExtractConfigField(tag, in, options...), with the type of `in` as `returnType`. */
  method ExtractConfigField<T>(tag: string, returnType: Type, options: seq<ExtractConfigFieldOption>)
    returns (w: FuncValue<T>)
    ensures w == Extractor(tag, returnType, SourceFile(options))
  {
    var file := ResolveExtractOptions(options);
    var funcTypeIns: seq<Type> := [];
    var annotations: seq<Annotation> := [];
    if file.Some? {
      funcTypeIns := funcTypeIns + [UnmarshalType];
      annotations := annotations + [NameAnnotation(ConfigName(file.value))];
    } else {
      funcTypeIns := funcTypeIns + [UnmarshalSliceType];
      annotations := annotations + [GroupAnnotation(ConfigFileGroup)];
    }
    var target := FuncTarget(funcTypeIns, [returnType, ErrorType], ExtractorBody(tag, returnType, file));
    assert annotations == [RequestAnnotation(file)];
    assert target == ExtractorTarget(tag, returnType, file);
    w := WithAnnotated(annotations, target);
  }

  /** The tag of the extractor's one slot. */
  lemma RequestTag(file: Option<string>)
    ensures file.Some? ==>
      TagOf(RequestAnnotation(file)) == "name:\"" + ConfigFileAnnotationPrefix + file.value + "\""
    ensures file.None? ==> TagOf(RequestAnnotation(file)) == "group:\"" + ConfigFileGroup + "\""
  {
    var a := RequestAnnotation(file);
    TagOfShape(a);
    if file.Some? {
      assert TagOf(a) == "name:\"" + (ConfigFileAnnotationPrefix + file.value) + "\"";
    } else {
      assert TagOf(a) == "group:\"" + ConfigFileGroup + "\"";
    }
  }

  /** The extractor's bag: fx.In, then `Field0` of the requested type carrying the request's tag. */
  lemma RequestBag(file: Option<string>)
    ensures Slots([RequestAnnotation(file)], [RequestType(file)]) ==
      [Field("In", true, InMarker, ""), Field("Field0", false, RequestType(file), TagOf(RequestAnnotation(file)))]
  {
    var a := RequestAnnotation(file);
    SlotsAt([a], [RequestType(file)]);
    assert Decimal(0) == "0";
    assert FieldName(0) == "Field0";
  }

  /** The extractor's signature: its one parameter is a bag of fx.In and `Field0`, of the
      requested type and tagged `name:"<prefix><file>"` or `group:"<group>"`; it returns (value, error). */
  lemma ExtractorSignature<T>(tag: string, returnType: Type, file: Option<string>)
    ensures file.Some? ==> Extractor<T>(tag, returnType, file).typ == FuncType(
      [StructType([Field("In", true, InMarker, ""),
                   Field("Field0", false, UnmarshalType,
                         "name:\"" + ConfigFileAnnotationPrefix + file.value + "\"")])],
      [returnType, ErrorType])
    ensures file.None? ==> Extractor<T>(tag, returnType, file).typ == FuncType(
      [StructType([Field("In", true, InMarker, ""),
                   Field("Field0", false, UnmarshalSliceType,
                         "group:\"" + ConfigFileGroup + "\"")])],
      [returnType, ErrorType])
  {
    RequestTag(file);
    RequestBag(file);
  }

  /** The extractor's `Field0`, the bag member the container fills. */
  function RequestField(file: Option<string>): Field
  {
    Slot([RequestAnnotation(file)], [RequestType(file)], 0)
  }

  /** Resolving the extractor's input from registry `r` by the tag of its `Field0`, and
      calling it; None when the container cannot supply the input. */
  function Run<T>(r: Registry<T>, tag: string, returnType: Type, file: Option<string>): Option<seq<Value<T>>>
  {
    Serve(r, Extractor(tag, returnType, file), RequestField(file))
  }

  /** Filling bag member `f` of the adapted function `w` from registry `r`, and calling `w`. */
  function Serve<T>(r: Registry<T>, w: FuncValue<T>, f: Field): Option<seq<Value<T>>>
  {
    match Resolve(r, f)
    case None => None
    case Some(v) =>
      if Accepts(w, [StructValue([InValue, v])]) then Some(Call(w, [StructValue([InValue, v])])) else None
  }

  /** The prefix and the group name need no escape inside a tag. */
  lemma ConstantsPlain()
    ensures PlainValue(ConfigFileAnnotationPrefix) && PlainValue(ConfigFileGroup)
  {
    var g := ConfigFileGroup;
    assert forall i :: 0 <= i < |g| ==> 'a' <= g[i] <= 'z' || 'A' <= g[i] <= 'Z' || g[i] == '.' || g[i] == '/';
    assert PlainValue("/");
    PlainConcat(g, "/");
    assert ConfigFileAnnotationPrefix == g + "/";
  }

  /** The extractor's `Field0`: of the requested type, tagged with the request's annotation. */
  lemma RequestFieldShape(file: Option<string>)
    ensures RequestField(file) == Field("Field0", false, RequestType(file), TagOf(RequestAnnotation(file)))
  {
    RequestBag(file);
    SlotsAt([RequestAnnotation(file)], [RequestType(file)]);
  }

  /** What the container reads from the extractor's `Field0` by name: for a file with no
      quote, backslash or newline, the file's name and no group. */
  lemma RequestReadsByName(file: string)
    requires PlainValue(file)
    ensures Get(RequestField(Some(file)).tag, "name") == ConfigName(file)
    ensures Get(RequestField(Some(file)).tag, "group") == ""
  {
    RequestFieldShape(Some(file));
    ConstantsPlain();
    PlainConcat(ConfigFileAnnotationPrefix, file);
    TagRoundTrip(NameAnnotation(ConfigName(file)));
  }

  /** What the container reads from the extractor's `Field0` by group: the shared group and no name. */
  lemma RequestReadsByGroup()
    ensures Get(RequestField(None).tag, "group") == ConfigFileGroup
    ensures Get(RequestField(None).tag, "name") == ""
  {
    RequestFieldShape(None);
    ConstantsPlain();
    GroupTagReads(ConfigFileGroup);
  }

  /** The tag of a required group annotation reads back as that group and no name. */
  lemma GroupTagReads(g: string)
    requires PlainValue(g)
    ensures Get(TagOf(GroupAnnotation(g)), "group") == g
    ensures Get(TagOf(GroupAnnotation(g)), "name") == ""
  {
    TagRoundTrip(GroupAnnotation(g));
  }

  /** Decoding returns the record's field and a nil error, or the zero value and the
      cause wrapped as "unable to unmarshal config file: ...". */
  lemma DecodeOutcome<T>(u: Unmarshal<T>, tag: string, returnType: Type)
    ensures u.decode(ConfigRecord(tag, returnType)).Decoded? ==>
      DecodeInto(u, tag, returnType) == [ConfigValue(u.decode(ConfigRecord(tag, returnType)).value), NilError]
    ensures u.decode(ConfigRecord(tag, returnType)).DecodeError? ==>
      var cause := u.decode(ConfigRecord(tag, returnType)).cause;
      DecodeInto(u, tag, returnType) == [Zero(returnType), ErrorValue(UnmarshalFailed(cause))] &&
      Message(UnmarshalFailed(cause)) == "unable to unmarshal config file: " + cause
    ensures DecodeInto(u, tag, returnType)[1] == NilError <==> u.decode(ConfigRecord(tag, returnType)).Decoded?
  {
  }

  /** By name, for a file whose name needs no escape (no quote, backslash or newline): the
      capability registered under the file's name, whatever else is registered; nothing when
      that name is missing. Other names are the subject of the lemmas at the end of this module. */
  lemma ExtractByName<T>(r: Registry<T>, tag: string, returnType: Type, file: string)
    ensures PlainValue(file) && ConfigName(file) in r.named ==>
      Run(r, tag, returnType, Some(file)) == Some(DecodeInto(r.named[ConfigName(file)], tag, returnType))
    ensures PlainValue(file) && ConfigName(file) !in r.named ==> Run(r, tag, returnType, Some(file)) == None
  {
    if PlainValue(file) {
      RequestFieldShape(Some(file));
      RequestReadsByName(file);
      NameNotEmpty(file);
      ServeNamed(r, tag, returnType, file, RequestField(Some(file)), ConfigName(file));
    }
  }

  /** A file's registration name is never empty: it starts with the prefix. */
  lemma NameNotEmpty(file: string)
    ensures ConfigName(file) != ""
  {
    assert |ConfigName(file)| >= |ConfigFileAnnotationPrefix|;
    assert ConfigFileAnnotationPrefix[0] == 'g';
  }

  /** The by-name extractor served through member `f`, whose tag reads as name `n` and no group. */
  lemma ServeNamed<T>(r: Registry<T>, tag: string, returnType: Type, file: string, f: Field, n: string)
    requires Get(f.tag, "group") == "" && Get(f.tag, "name") == n && n != "" && f.typ == UnmarshalType
    ensures n !in r.named ==> Serve(r, Extractor(tag, returnType, Some(file)), f) == None
    ensures n in r.named ==>
      Serve(r, Extractor(tag, returnType, Some(file)), f) == Some(DecodeInto(r.named[n], tag, returnType))
  {
    ServeName(r, Extractor(tag, returnType, Some(file)), f, n);
    if n in r.named {
      ExtractorOnName(tag, returnType, file, r.named[n]);
    }
  }

  /** The by-name extractor called on a bag holding the capability `u`. */
  lemma ExtractorOnName<T>(tag: string, returnType: Type, file: string, u: Unmarshal<T>)
    ensures var arg := [StructValue([InValue, UnmarshalValue(u)])];
      && Accepts(Extractor(tag, returnType, Some(file)), arg)
      && Call(Extractor(tag, returnType, Some(file)), arg) == DecodeInto(u, tag, returnType)
  {
    var bag := [InValue, UnmarshalValue(u)];
    AdaptForwards([RequestAnnotation(Some(file))], ExtractorTarget<T>(tag, returnType, Some(file)), bag);
  }

  /** By group: "no config files were provided" with the zero value when the group is
      empty, else the group's last member. */
  lemma ExtractByGroup<T>(r: Registry<T>, tag: string, returnType: Type)
    ensures var us := Members(r, ConfigFileGroup);
      Run(r, tag, returnType, None) ==
        Some(if us == [] then [Zero(returnType), ErrorValue(NoConfigFiles)] else DecodeInto(us[|us| - 1], tag, returnType))
    ensures Message(NoConfigFiles) == "no config files were provided"
  {
    RunByGroup(r, tag, returnType, None);
  }

  /** Extraction on the group path, stated for a request `file` known to be None. */
  lemma RunByGroup<T>(r: Registry<T>, tag: string, returnType: Type, file: Option<string>)
    requires file == None
    ensures var us := Members(r, ConfigFileGroup);
      Run(r, tag, returnType, file) ==
        Some(if us == [] then [Zero(returnType), ErrorValue(NoConfigFiles)] else DecodeInto(us[|us| - 1], tag, returnType))
  {
    RequestReadsByGroup();
    ServeGroup(r, Extractor(tag, returnType, file), RequestField(file), ConfigFileGroup);
    ExtractorOnGroup(tag, returnType, Members(r, ConfigFileGroup));
  }

  /** The group extractor called on a bag holding the list `us`. */
  lemma ExtractorOnGroup<T>(tag: string, returnType: Type, us: seq<Unmarshal<T>>)
    ensures var arg := [StructValue([InValue, UnmarshalSliceValue(us)])];
      && Accepts(Extractor(tag, returnType, None), arg)
      && Call(Extractor(tag, returnType, None), arg) ==
           if us == [] then [Zero(returnType), ErrorValue(NoConfigFiles)] else DecodeInto(us[|us| - 1], tag, returnType)
  {
    var bag := [InValue, UnmarshalSliceValue(us)];
    AdaptForwards([RequestAnnotation(None)], ExtractorTarget<T>(tag, returnType, None), bag);
    assert bag[1..] == [bag[1]];
  }

  /** Serving a member whose tag reads as group `g` and no name hands `w` the group's members. */
  lemma ServeGroup<T>(r: Registry<T>, w: FuncValue<T>, f: Field, g: string)
    requires Get(f.tag, "group") == g && g != "" && Get(f.tag, "name") == "" && f.typ == UnmarshalSliceType
    ensures var arg := [StructValue([InValue, UnmarshalSliceValue(Members(r, g))])];
      Serve(r, w, f) == if Accepts(w, arg) then Some(Call(w, arg)) else None
  {
  }

  /** Serving a member whose tag reads as name `n` and no group hands `w` the capability named `n`. */
  lemma ServeName<T>(r: Registry<T>, w: FuncValue<T>, f: Field, n: string)
    requires Get(f.tag, "group") == "" && Get(f.tag, "name") == n && n != "" && f.typ == UnmarshalType
    ensures n !in r.named ==> Serve(r, w, f) == None
    ensures n in r.named ==> var arg := [StructValue([InValue, UnmarshalValue(r.named[n])])];
      Serve(r, w, f) == if Accepts(w, arg) then Some(Call(w, arg)) else None
  {
  }

  /** The options that provide each files[k] with caps[k]. */
  function Provisions<T>(files: seq<string>, caps: seq<Unmarshal<T>>): seq<FxOption<T>>
    requires |files| == |caps|
  {
    seq(|files|, k requires 0 <= k < |files| => ProvideConfig(files[k], caps[k]))
  }

  /** Providing distinct, not yet registered files in order names each one's capability
      and appends the capabilities to the group in that order. */
  lemma {:induction false} ProvideInOrder<T>(r: Registry<T>, files: seq<string>, caps: seq<Unmarshal<T>>)
    requires |files| == |caps|
    requires forall i, j :: 0 <= i < j < |files| ==> files[i] != files[j]
    requires forall k :: 0 <= k < |files| ==> ConfigName(files[k]) !in r.named
    ensures ApplyAll(r, Provisions(files, caps)).Ok?
    ensures var r' := ApplyAll(r, Provisions(files, caps)).value;
      && Members(r', ConfigFileGroup) == Members(r, ConfigFileGroup) + caps
      && (forall k :: 0 <= k < |files| ==> ConfigName(files[k]) in r'.named && r'.named[ConfigName(files[k])] == caps[k])
      && (forall n :: n in r.named ==> n in r'.named && r'.named[n] == r.named[n])
    decreases |files|
  {
    var opts := Provisions(files, caps);
    if files == [] {
      assert opts == [];
    } else {
      assert opts[0] == ProvideConfig(files[0], caps[0]);
      ProvideConfigEffect(r, files[0], caps[0]);
      var r1 := Apply(r, opts[0]).value;
      assert opts[1..] == Provisions(files[1..], caps[1..]);
      RestNotRegistered(r, files, caps[0]);
      ProvideInOrder(r1, files[1..], caps[1..]);
      var r' := ApplyAll(r1, opts[1..]).value;
      assert ApplyAll(r, opts) == ApplyAll(r1, opts[1..]);
      ProvideStep(r, r1, r', files, caps);
    }
  }

  /** The inductive step of ProvideInOrder: what registering the first file and then the
      rest gives, in terms of the two registrations' separate effects. */
  lemma ProvideStep<T>(r: Registry<T>, r1: Registry<T>, r': Registry<T>, files: seq<string>, caps: seq<Unmarshal<T>>)
    requires |files| == |caps| && files != []
    requires ConfigName(files[0]) !in r.named
    requires r1 == Registry(r.named[ConfigName(files[0]) := caps[0]],
      r.groups[ConfigFileGroup := Members(r, ConfigFileGroup) + [caps[0]]])
    requires Members(r', ConfigFileGroup) == Members(r1, ConfigFileGroup) + caps[1..]
    requires forall k :: 0 <= k < |files[1..]| ==>
      ConfigName(files[1..][k]) in r'.named && r'.named[ConfigName(files[1..][k])] == caps[1..][k]
    requires forall n :: n in r1.named ==> n in r'.named && r'.named[n] == r1.named[n]
    ensures Members(r', ConfigFileGroup) == Members(r, ConfigFileGroup) + caps
    ensures forall k :: 0 <= k < |files| ==> ConfigName(files[k]) in r'.named && r'.named[ConfigName(files[k])] == caps[k]
    ensures forall n :: n in r.named ==> n in r'.named && r'.named[n] == r.named[n]
  {
    assert Members(r1, ConfigFileGroup) == Members(r, ConfigFileGroup) + [caps[0]];
    assert caps == [caps[0]] + caps[1..];
    forall k | 0 <= k < |files|
      ensures ConfigName(files[k]) in r'.named && r'.named[ConfigName(files[k])] == caps[k]
    {
      if k > 0 {
        assert files[k] == files[1..][k - 1] && caps[k] == caps[1..][k - 1];
      }
    }
  }

  /** Once the first of distinct files is registered, the others are still unregistered. */
  lemma RestNotRegistered<T>(r: Registry<T>, files: seq<string>, u: Unmarshal<T>)
    requires files != []
    requires forall i, j :: 0 <= i < j < |files| ==> files[i] != files[j]
    requires forall k :: 0 <= k < |files| ==> ConfigName(files[k]) !in r.named
    ensures forall k :: 0 <= k < |files[1..]| ==> ConfigName(files[1..][k]) !in r.named[ConfigName(files[0]) := u]
  {
    forall k | 0 <= k < |files[1..]|
      ensures ConfigName(files[1..][k]) !in r.named[ConfigName(files[0]) := u]
    {
      assert files[1..][k] == files[k + 1];
      if ConfigName(files[k + 1]) == ConfigName(files[0]) {
        ConfigNameInjective(files[k + 1], files[0]);
      }
    }
  }

  /** After providing files in order, group extraction decodes with the last one provided. */
  lemma MostRecentWins<T>(files: seq<string>, caps: seq<Unmarshal<T>>, tag: string, returnType: Type)
    requires |files| == |caps| && caps != []
    requires forall i, j :: 0 <= i < j < |files| ==> files[i] != files[j]
    ensures ApplyAll(EmptyRegistry(), Provisions(files, caps)).Ok?
    ensures Run(ApplyAll(EmptyRegistry(), Provisions(files, caps)).value, tag, returnType, None) ==
      Some(DecodeInto(caps[|caps| - 1], tag, returnType))
  {
    ProvideInOrder(EmptyRegistry(), files, caps);
    ExtractByGroup(ApplyAll(EmptyRegistry(), Provisions(files, caps)).value, tag, returnType);
  }

  /** After providing files in order, extraction by one file's name decodes with that file's
      capability, when that name needs no escape. */
  lemma NamedPickIgnoresOthers<T>(files: seq<string>, caps: seq<Unmarshal<T>>, k: nat, tag: string, returnType: Type)
    requires |files| == |caps| && k < |files|
    requires forall i, j :: 0 <= i < j < |files| ==> files[i] != files[j]
    ensures ApplyAll(EmptyRegistry(), Provisions(files, caps)).Ok?
    ensures PlainValue(files[k]) ==>
      Run(ApplyAll(EmptyRegistry(), Provisions(files, caps)).value, tag, returnType, Some(files[k])) ==
      Some(DecodeInto(caps[k], tag, returnType))
  {
    ProvideInOrder(EmptyRegistry(), files, caps);
    ExtractByName(ApplyAll(EmptyRegistry(), Provisions(files, caps)).value, tag, returnType, files[k]);
  }

  /** A capability that decodes every record to `v`, standing for a fixed JSON document. */
  function Constant<T>(v: T): Unmarshal<T>
  {
    Unmarshal(_ => Decoded(v))
  }

  /** Providers "a", "b", "c" decoding to "oops", "hello world", "not ok": extraction
      by "b" yields "hello world". */
  lemma ThreeProvidersScenario()
    ensures var files := ["a", "b", "c"];
      var caps := [Constant("oops"), Constant("hello world"), Constant("not ok")];
      && ApplyAll(EmptyRegistry(), Provisions(files, caps)).Ok?
      && Run(ApplyAll(EmptyRegistry(), Provisions(files, caps)).value, "json:\"s\"", Named("*S"), Some("b")) ==
           Some([ConfigValue("hello world"), NilError])
  {
    var files := ["a", "b", "c"];
    var caps := [Constant("oops"), Constant("hello world"), Constant("not ok")];
    assert files[0] != files[1] && files[0] != files[2] && files[1] != files[2];
    assert files[1] == "b" && PlainValue("b");
    NamedPickIgnoresOthers(files, caps, 1, "json:\"s\"", Named("*S"));
    DecodeOutcome(caps[1], "json:\"s\"", Named("*S"));
  }

  /** The same three providers extracted by group: with the group delivered in
      registration order, the last one provided, "not ok", is decoded. */
  lemma ThreeProvidersByGroup()
    ensures var files := ["a", "b", "c"];
      var caps := [Constant("oops"), Constant("hello world"), Constant("not ok")];
      && ApplyAll(EmptyRegistry(), Provisions(files, caps)).Ok?
      && Run(ApplyAll(EmptyRegistry(), Provisions(files, caps)).value, "json:\"s\"", Named("*S"), None) ==
           Some([ConfigValue("not ok"), NilError])
  {
    var files := ["a", "b", "c"];
    var caps := [Constant("oops"), Constant("hello world"), Constant("not ok")];
    MostRecentWins(files, caps, "json:\"s\"", Named("*S"));
  }

  /** Whatever order the group is delivered in, group extraction decodes with one
      of the group's registered members, and fails only when the group is empty. */
  lemma GroupPickAnyOrder<T>(r: Registry<T>, delivered: seq<Unmarshal<T>>, tag: string, returnType: Type)
    requires multiset(delivered) == multiset(Members(r, ConfigFileGroup))
    ensures delivered == [] ==>
      Extract(false, tag, returnType, [UnmarshalSliceValue(delivered)]) == [Zero(returnType), ErrorValue(NoConfigFiles)]
    ensures delivered != [] ==>
      exists k :: 0 <= k < |Members(r, ConfigFileGroup)| &&
        Extract(false, tag, returnType, [UnmarshalSliceValue(delivered)]) == DecodeInto(Members(r, ConfigFileGroup)[k], tag, returnType)
  {
    if delivered != [] {
      var u := delivered[|delivered| - 1];
      assert u in multiset(delivered);
      assert u in Members(r, ConfigFileGroup);
      var k :| 0 <= k < |Members(r, ConfigFileGroup)| && Members(r, ConfigFileGroup)[k] == u;
    }
  }

  /** As written, a quote in a file name ends the requested name early: file `p" x:"y` is
      served the capability registered for file `p`, and nothing when `p` has none. */
  lemma ForgedFileTakesOthersCapability<T>(r: Registry<T>, tag: string, returnType: Type, p: string)
    requires PlainValue(p)
    ensures ConfigName(p) in r.named ==>
      Run(r, tag, returnType, Some(p + "\" x:\"y")) == Some(DecodeInto(r.named[ConfigName(p)], tag, returnType))
    ensures ConfigName(p) !in r.named ==> Run(r, tag, returnType, Some(p + "\" x:\"y")) == None
  {
    var f := p + "\" x:\"y";
    ConstantsPlain();
    PlainConcat(ConfigFileAnnotationPrefix, p);
    assert ConfigName(f) == ConfigName(p) + "\" x:\"y";
    RequestFieldShape(Some(f));
    QuoteTruncatesName(ConfigName(p), "name");
    QuoteTruncatesName(ConfigName(p), "group");
    NameNotEmpty(p);
    ServeNamed(r, tag, returnType, f, RequestField(Some(f)), ConfigName(p));
  }

  /** Files "b" and `b" x:"y` both provided: extraction from the second decodes with the first's capability. */
  lemma ForgedFileScenario<T>(ub: Unmarshal<T>, uq: Unmarshal<T>, tag: string, returnType: Type)
    ensures var files := ["b", "b\" x:\"y"];
      && ApplyAll(EmptyRegistry(), Provisions(files, [ub, uq])).Ok?
      && Run(ApplyAll(EmptyRegistry(), Provisions(files, [ub, uq])).value, tag, returnType, Some(files[1])) ==
           Some(DecodeInto(ub, tag, returnType))
  {
    var files := ["b", "b\" x:\"y"];
    assert files[1] == "b" + "\" x:\"y" && files[0] != files[1];
    ProvideInOrder(EmptyRegistry(), files, [ub, uq]);
    var r := ApplyAll(EmptyRegistry(), Provisions(files, [ub, uq])).value;
    assert ConfigName(files[0]) in r.named && r.named[ConfigName(files[0])] == ub;
    ForgedFileTakesOthersCapability(r, tag, returnType, "b");
  }

  /** As written, a file name holding `\c` (a backslash before a letter Go's literals do
      not escape) cannot be extracted by name: the container reads no name from the tag. */
  lemma BadEscapeFileNotFound<T>(r: Registry<T>, tag: string, returnType: Type, p: string, q: string)
    requires PlainValue(p) && '"' !in q
    ensures Run(r, tag, returnType, Some(p + "\\c" + q)) == None
  {
    var f := p + "\\c" + q;
    ConstantsPlain();
    PlainConcat(ConfigFileAnnotationPrefix, p);
    assert ConfigName(f) == ConfigName(p) + "\\c" + q;
    RequestFieldShape(Some(f));
    BadEscapeHidesName(ConfigName(p), q, "name");
    BadEscapeHidesName(ConfigName(p), q, "group");
  }

  /** As written, a file name holding `\x` and the two hexadecimal digits of a character
      below 0x80 is extracted as if that character stood in their place: with the
      capability of that other file, or nothing when it is not provided. */
  lemma ByteEscapeTakesOthersCapability<T>(r: Registry<T>, tag: string, returnType: Type, p: string, c: char)
    requires PlainValue(p) && c as nat < 0x80
    ensures var f := p + "\\x" + HexDigits(c as nat, 2);
      && (ConfigName(p + [c]) in r.named ==>
            Run(r, tag, returnType, Some(f)) == Some(DecodeInto(r.named[ConfigName(p + [c])], tag, returnType)))
      && (ConfigName(p + [c]) !in r.named ==> Run(r, tag, returnType, Some(f)) == None)
  {
    var f := p + "\\x" + HexDigits(c as nat, 2);
    ConstantsPlain();
    PlainConcat(ConfigFileAnnotationPrefix, p);
    assert ConfigName(f) == ConfigName(p) + "\\x" + HexDigits(c as nat, 2);
    assert ConfigName(p + [c]) == ConfigName(p) + [c];
    RequestFieldShape(Some(f));
    ByteEscapeReadsAs(ConfigName(p), c, "name");
    ByteEscapeReadsAs(ConfigName(p), c, "group");
    NameNotEmpty(p + [c]);
    ServeNamed(r, tag, returnType, f, RequestField(Some(f)), ConfigName(p + [c]));
  }

  /** Files "A" and `\x41` both provided: extraction from the second decodes with the first's capability. */
  lemma ByteEscapeScenario<T>(ua: Unmarshal<T>, ux: Unmarshal<T>, tag: string, returnType: Type)
    ensures var files := ["A", "\\x41"];
      && ApplyAll(EmptyRegistry(), Provisions(files, [ua, ux])).Ok?
      && Run(ApplyAll(EmptyRegistry(), Provisions(files, [ua, ux])).value, tag, returnType, Some(files[1])) ==
           Some(DecodeInto(ua, tag, returnType))
  {
    var files := ["A", "\\x41"];
    assert HexDigits('A' as nat, 2) == "41";
    assert files[1] == "" + "\\x" + HexDigits('A' as nat, 2) && files[0] != files[1];
    assert files[0] == "" + ['A'];
    ProvideInOrder(EmptyRegistry(), files, [ua, ux]);
    var r := ApplyAll(EmptyRegistry(), Provisions(files, [ua, ux])).value;
    assert ConfigName(files[0]) in r.named && r.named[ConfigName(files[0])] == ua;
    ByteEscapeTakesOthersCapability(r, tag, returnType, "", 'A');
  }

  /** The Windows path `C:\cfg\app.json`, provided under its own path, is registered but
      extraction by that path finds nothing. */
  lemma WindowsPathScenario<T>(u: Unmarshal<T>, tag: string, returnType: Type)
    ensures var file := "C:\\cfg\\app.json";
      && Apply(EmptyRegistry(), ProvideConfig(file, u)).Ok?
      && ConfigName(file) in Apply(EmptyRegistry(), ProvideConfig(file, u)).value.named
      && Run(Apply(EmptyRegistry(), ProvideConfig(file, u)).value, tag, returnType, Some(file)) == None
  {
    var file := "C:\\cfg\\app.json";
    ProvideConfigEffect(EmptyRegistry<T>(), file, u);
    assert file == "C:" + "\\c" + "fg\\app.json";
    BadEscapeFileNotFound(Apply(EmptyRegistry(), ProvideConfig(file, u)).value, tag, returnType, "C:", "fg\\app.json");
  }

  /** The corrected request member: `Field0` tagged with the file's name written as a Go literal. */
  function QuotedRequestField(file: Option<string>): Field
  {
    Field("Field0", false, RequestType(file), QuotedTagOf(RequestAnnotation(file)))
  }

  /** Extraction with the corrected tag. */
  function QuotedRun<T>(r: Registry<T>, tag: string, returnType: Type, file: Option<string>): Option<seq<Value<T>>>
  {
    Serve(r, Extractor(tag, returnType, file), QuotedRequestField(file))
  }

  /** The corrected `Field0` reads back as exactly the file's name, and no group. */
  lemma QuotedRequestReads(file: string)
    ensures QuotedRequestField(Some(file)).typ == UnmarshalType
    ensures Get(QuotedRequestField(Some(file)).tag, "name") == ConfigName(file)
    ensures Get(QuotedRequestField(Some(file)).tag, "group") == ""
    ensures ConfigName(file) != ""
  {
    QuotedTagRoundTrip(NameAnnotation(ConfigName(file)));
    NameNotEmpty(file);
  }

  /** With the corrected tag, extraction by name decodes with the capability registered for
      that very file, whatever characters its name holds, and agrees with the tag as written
      whenever the name needs no escape. */
  lemma QuotedExtractByName<T>(r: Registry<T>, tag: string, returnType: Type, file: string)
    ensures ConfigName(file) in r.named ==>
      QuotedRun(r, tag, returnType, Some(file)) == Some(DecodeInto(r.named[ConfigName(file)], tag, returnType))
    ensures ConfigName(file) !in r.named ==> QuotedRun(r, tag, returnType, Some(file)) == None
    ensures PlainValue(file) ==> QuotedRun(r, tag, returnType, Some(file)) == Run(r, tag, returnType, Some(file))
  {
    QuotedRequestReads(file);
    ServeNamed(r, tag, returnType, file, QuotedRequestField(Some(file)), ConfigName(file));
    if PlainValue(file) {
      ConstantsPlain();
      PlainConcat(ConfigFileAnnotationPrefix, file);
      RequestFieldShape(Some(file));
      QuotedTagRoundTrip(NameAnnotation(ConfigName(file)));
      assert QuotedRequestField(Some(file)) == RequestField(Some(file));
    }
  }
}
