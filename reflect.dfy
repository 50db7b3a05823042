/**
  Plain-data stand-ins for what the adapter handles through Go's `reflect`
  package: type descriptors, struct fields, runtime values, the decoding
  capability `Unmarshal`, and the errors the core reports.
 */
module Reflect {

  /** A type descriptor. Only the types the core itself names have their own
      constructor; every other type is identified by its name. */
  datatype Type =
    | InMarker                          // fx.In, embedded first in every parameter bag
    | ErrorType                         // the built-in `error` interface
    | UnmarshalType                     // Unmarshal
    | UnmarshalSliceType                // []Unmarshal, what a group delivers
    | Named(name: string)               // any other type
    | StructType(fields: seq<Field>)    // a record built by reflect.StructOf
    | FuncType(ins: seq<Type>, outs: seq<Type>)  // a signature built by reflect.FuncOf

  /** One member of a synthesised record: name, embedding flag, type and struct tag. */
  datatype Field = Field(name: string, anonymous: bool, typ: Type, tag: string)

  /** What a decoding capability reports: the value of the record's field, or the cause of a failure. */
  datatype Decoded<T> = Decoded(value: T) | DecodeError(cause: string)

  /** The opaque decoding capability. It is handed a pointer to a fresh record
      of the given type and either fills the record's one field or fails. */
  datatype Unmarshal<T> = Unmarshal(decode: Type -> Decoded<T>)

  /** The bytes of a configuration file. */
  type Bytes = seq<bv8>

  /** The outcome of reading a file from disk, taken as an input. */
  datatype ReadResult = ReadOk(bytes: Bytes) | ReadError(cause: string)

  /** The errors that the core itself creates. The wrapped cause of a `%w`
      error is kept as its message text. */
  datatype Error =
    | NotAFunction
    | ReadFailed(file: string, cause: string)
    | NoConfigFiles
    | UnmarshalFailed(cause: string)

  /** The message of each error, as the source formats it. */
  function Message(e: Error): string
  {
    match e
    case NotAFunction => "WithAnnotated returned function must be called with a function"
    case ReadFailed(file, cause) => "unable to read file '" + file + "': " + cause
    case NoConfigFiles => "no config files were provided"
    case UnmarshalFailed(cause) => "unable to unmarshal config file: " + cause
  }

  /** A runtime value (a `reflect.Value`) as far as the core tells values apart. */
  datatype Value<T> =
    | InValue                              // the zero fx.In embedded in a bag
    | StructValue(fields: seq<Value<T>>)   // a parameter bag, one value per field
    | UnmarshalValue(u: Unmarshal<T>)
    | UnmarshalSliceValue(us: seq<Unmarshal<T>>)
    | ConfigValue(config: T)               // a decoded configuration value
    | Zero(typ: Type)                      // reflect.Zero of a type
    | ErrorValue(err: Error)               // a non-nil error
    | NilError                             // the nil error
    | Opaque(id: nat)                      // any other value an application passes around
}
