/**
  The earlier revision of the configuration core: ProvideConfigFile and
  WithConfigField. Registration and extraction behave as in ConfigField,
  except that the disk helper always registers under the file's path.
  The extractor's closure is a copy of ConfigField's and is modelled by
  the same functions.
 */
module LegacyConfigField {
  import opened Wrappers
  import opened Reflect
  import opened StructTag
  import opened Annotations
  import opened Adapter
  import opened Container
  import CF = ConfigField

  const ConfigFileAnnotationPrefix := "github.com/joesonw/fxx.ProvideConfigFile/"
  const ConfigFileGroup := "github.com/joesonw/fxx.ProvideConfigFile"

  /** ProvideConfigFile(file, u): `u` provided under the file's name and into the shared group. */
  function ProvideConfigFile<T>(file: string, u: Unmarshal<T>): (opt: FxOption<T>)
    ensures opt.Options?
    ensures forall e :: e in opt.entries ==> e.target == u
    ensures (set e | e in opt.entries :: e.key) == {NameKey(ConfigFileAnnotationPrefix + file), GroupKey(ConfigFileGroup)}
  {
    Options([Provide(NameKey(ConfigFileAnnotationPrefix + file), u), Provide(GroupKey(ConfigFileGroup), u)])
  }

  /** Applying ProvideConfigFile(file, u) maps the file's name to `u` and appends `u` to the
      shared group, leaving everything else as it was; a name already taken is a conflict. */
  lemma ProvideConfigFileEffect<T>(r: Registry<T>, file: string, u: Unmarshal<T>)
    ensures ConfigFileAnnotationPrefix + file in r.named ==>
      Apply(r, ProvideConfigFile(file, u)) == Err(DuplicateName(ConfigFileAnnotationPrefix + file))
    ensures ConfigFileAnnotationPrefix + file !in r.named ==>
      Apply(r, ProvideConfigFile(file, u)) ==
        Ok(Registry(r.named[ConfigFileAnnotationPrefix + file := u],
                    r.groups[ConfigFileGroup := Members(r, ConfigFileGroup) + [u]]))
    ensures ProvideConfigFile(file, u) == CF.ProvideConfig(file, u)
  {
    CF.ProvideConfigEffect(r, file, u);
  }

  /** provideConfigFileFromDisk of this revision: no options, the name is always the path. */
  method ProvideConfigFileFromDisk<T>(file: string, decoder: (Bytes, Type) -> Decoded<T>, read: ReadResult)
    returns (opt: FxOption<T>)
    ensures read.ReadError? ==> opt == ErrorOption(ReadFailed(file, read.cause))
    ensures read.ReadOk? ==> opt == ProvideConfigFile(file, CF.FileUnmarshal(decoder, read.bytes))
  {
    if read.ReadError? {
      return ErrorOption(ReadFailed(file, read.cause));
    }
    opt := ProvideConfigFile(file, CF.FileUnmarshal(decoder, read.bytes));
  }

  /** withConfigFieldOptions: the record the extractor's options update. */
  class WithConfigFieldOptions {
    var file: Option<string>

    constructor ()
      ensures file == None
    {
      file := None;
    }
  }

  /** A WithConfigFieldOption; WithConfigFieldFromFile(file) is its only kind. */
  datatype WithConfigFieldOption = WithConfigFieldFromFile(file: string)
  {
    /** Running the option closure on the record. */
    method ApplyTo(o: WithConfigFieldOptions)
      modifies o
      ensures o.file == Some(file)
    {
      o.file := Some(file);
    }
  }

  /** The file the extractor reads from: None (the whole group) unless an option names one,
      in which case the last option wins. */
  function SourceFile(options: seq<WithConfigFieldOption>): Option<string>
  {
    if options == [] then None else Some(options[|options| - 1].file)
  }

  /** The option loop of WithConfigField. */
  method ResolveOptions(options: seq<WithConfigFieldOption>) returns (file: Option<string>)
    ensures file == SourceFile(options)
  {
    var o := new WithConfigFieldOptions();
    for i := 0 to |options|
      invariant o.file == SourceFile(options[..i])
    {
      options[i].ApplyTo(o);
      assert options[..i + 1][i] == options[i];
    }
    assert options[..|options|] == options;
    file := o.file;
  }

  /** WithConfigField(tag, in, options...), with the type of `in` as `returnType`: the same
      provider as ConfigField's extractor for the same choice of file. */
  method WithConfigField<T>(tag: string, returnType: Type, options: seq<WithConfigFieldOption>)
    returns (w: FuncValue<T>)
    ensures w == CF.Extractor(tag, returnType, SourceFile(options))
  {
    var file := ResolveOptions(options);
    var funcTypeIns: seq<Type> := [];
    var annotations: seq<Annotation> := [];
    if file.Some? {
      funcTypeIns := funcTypeIns + [UnmarshalType];
      annotations := annotations + [NameAnnotation(ConfigFileAnnotationPrefix + file.value)];
    } else {
      funcTypeIns := funcTypeIns + [UnmarshalSliceType];
      annotations := annotations + [GroupAnnotation(ConfigFileGroup)];
    }
    var target := FuncTarget(funcTypeIns, [returnType, ErrorType], CF.ExtractorBody(tag, returnType, file));
    assert annotations == [CF.RequestAnnotation(file)];
    assert target == CF.ExtractorTarget(tag, returnType, file);
    w := WithAnnotated(annotations, target);
  }

  /** What the extractor WithConfigField builds returns, given registry `r`: by name, for a file
      whose name needs no escape, the capability registered under the last option's file
      (nothing when it is missing); by group,
      "no config files were provided" for an empty group, else the group's last member. */
  lemma WithConfigFieldSelection<T>(r: Registry<T>, tag: string, returnType: Type, options: seq<WithConfigFieldOption>)
    ensures options != [] && PlainValue(options[|options| - 1].file) ==>
      var name := ConfigFileAnnotationPrefix + options[|options| - 1].file;
      CF.Run(r, tag, returnType, SourceFile(options)) ==
        if name in r.named then Some(CF.DecodeInto(r.named[name], tag, returnType)) else None
    ensures options == [] && Members(r, ConfigFileGroup) == [] ==>
      CF.Run(r, tag, returnType, SourceFile(options)) == Some([Zero(returnType), ErrorValue(NoConfigFiles)])
    ensures options == [] && Members(r, ConfigFileGroup) != [] ==>
      var us := Members(r, ConfigFileGroup);
      CF.Run(r, tag, returnType, SourceFile(options)) == Some(CF.DecodeInto(us[|us| - 1], tag, returnType))
  {
    if options != [] {
      CF.ExtractByName(r, tag, returnType, options[|options| - 1].file);
    } else {
      CF.ExtractByGroup(r, tag, returnType);
    }
  }

  /** WithConfigField is registered through WithAnnotated with exactly one annotation,
      matching the extractor's one input. */
  lemma WithConfigFieldSignature<T>(tag: string, returnType: Type, options: seq<WithConfigFieldOption>)
    ensures var w := CF.Extractor<T>(tag, returnType, SourceFile(options));
      && w.typ.FuncType? && |w.typ.ins| == 1 && w.typ.outs == [returnType, ErrorType]
      && w.typ.ins[0].StructType? && |w.typ.ins[0].fields| == 2
      && w.typ.ins[0].fields[1].tag ==
           if options == [] then "group:\"" + ConfigFileGroup + "\""
           else "name:\"" + ConfigFileAnnotationPrefix + options[|options| - 1].file + "\""
  {
    CF.ExtractorSignature<T>(tag, returnType, SourceFile(options));
  }
}
