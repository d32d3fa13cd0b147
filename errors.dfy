/** The exceptions the modelled code raises or catches, one constructor per Python exception class. */
module Errors {

  datatype Raised =
    | QueueException(reason: string)          // djutils.queue / djutils.queue.exceptions
    | CueException(reason: string)            // cue.utils, caught by the management command
    | KeyError(key: string)                   // `del d[k]` on a missing key
    | ValueError(reason: string)              // tuple unpacking of a split that found no separator
    | TypeError(reason: string)               // unpacking or calling with the wrong shape of data
    | UnpicklingError                         // `pickle.loads` of a malformed payload
    | NameError(name: string)                 // a name used but never bound
    | NotImplementedError                     // an abstract base method that was not overridden
    | AttributeError(reason: string)          // a method looked up on an object that does not have it
    | CommandError(reason: string)            // django.core.management.base.CommandError
    | PanelRegistryException(reason: string)  // djutils.dashboard.registry
    | BackoffConfigInvalid                    // the bare `Exception` raised for a backoff below 1
    | Interrupted                             // the process was stopped between two cycles
    | UserError(reason: string)               // anything else raised by user code
}
