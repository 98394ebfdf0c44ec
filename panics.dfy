/** Failure surface shared by the whole model.

    The reflector and the admin package have no recoverable errors: every
    failure is a Go `panic` that aborts the caller. `Result` stands for "the
    call returned this value" or "the call panicked, for this cause".
 */
module Panics {

  datatype Option<+T> = None | Some(value: T)

  /** Why a call panicked; one constructor per `panic` site the model covers. */
  datatype Cause =
    | NotStruct          // structTypeName on a non-struct type
    | NilMapWrite        // structTypeName storing into a nil registry
    | NoTypeName         // typeNameOf on a kind it has no rule for
    | NotPrimitive       // primitiveTypeName on a non-primitive kind
    | NotStructFields    // reflect's NumField on a type that is not a struct
    | MarshalFailed      // MarshalJSON, or decoding its output, failed
    | NilExampleType     // reflect.TypeOf(nil).Kind(): a JSON null in an example
    | NoExampleType      // buildTypeFromExample on a shape it has no rule for
    | TemplateUnparsable // the RAML template is not a YAML mapping
    | TypesNotMapping    // the template's `types` entry is not a mapping
    | RenderFailed       // yaml.Marshal failed
    | NoFuncResult       // evaluateIfFunc on a function with no results

  datatype Result<+T> = Ok(value: T) | Panic(cause: Cause)
}
