/**
 * What importing one discovered tool-provider module yields. Module
 * discovery itself is not modelled: the aggregators receive the discovered
 * modules, in discovery order, as a sequence of these outcomes.
 */
module Providers {

  /** The value bound to a module attribute, classified by how the aggregators treat it. */
  datatype Exported<T> =
    | NoneValue                       // the attribute is bound to None
    | ListOf(items: seq<T>)           // a list
    | OtherIterable(items: seq<T>, typeName: string)  // an iterable that is not a list, such as a tuple
    | NotIterable(typeName: string)   // any other value

  /** An imported module: its `__name__` and its attributes. */
  datatype Module<T> = Module(name: string, attributes: map<string, Exported<T>>)

  /** The outcome of importing a module: an exception, or the module. */
  datatype Load<T> = Raises(message: string) | Loads(imported: Module<T>)

  /** One discovered module: the name discovery gave it and what importing it does. */
  datatype Discovered<T> = Discovered(name: string, load: Load<T>)
}
