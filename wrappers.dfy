/** Option and Result values standing in for Python's None defaults and raised exceptions. */
module Wrappers {

  datatype Option<+T> = None | Some(value: T)

  /** The exceptions the modelled code raises, named after the Python exception class. */
  datatype Error =
    | RuntimeError(reason: string)  // raised explicitly by SpectrumGenerator
    | ValueError(reason: string)    // raised by numpy or by int()
    | IndexError                    // out-of-range list subscript
    | AttributeError                // a string method called on None
    | UnboundLocalError             // a local read before any assignment
    | ZeroDivisionError             // 1/float(0)
    | KernelError                   // the LSF collaborator could not build a kernel

  datatype Result<+T> = Ok(value: T) | Err(error: Error)
}
