/** Failure values shared by the model: the exceptions the Python code raises,
    and the Option/Result wrappers that carry them. */
module Errors {

  datatype Option<+T> = None | Some(value: T)

  /** The exceptions of the core, by cause. */
  datatype Error =
    | ZeroDivision              // resize_keep_ratio on an image with a zero-length side
    | NotADirectory(path: string) // FileNotFoundError raised by eval_whole_folder
    | NotAFile(path: string)      // FileNotFoundError raised by eval_single_image
    | CannotOpen(path: string)    // Image.open on a path that is not a regular file
    | InvalidInputPath(path: string) // ValueError raised by run_inference
    | ModelLoadFailed(path: string) // ONNX Runtime unable to open or parse a model file
    | SessionRunFailed            // ONNX Runtime failing in InferenceSession.run

  datatype Result<+T> = Ok(value: T) | Err(error: Error)
}
