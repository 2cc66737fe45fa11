/** What the scripts hand to the native tools, and the Python exceptions that stop them. */
module Process {
  import opened Wrappers

  /** An environment: variable name to value. */
  type Env = map<string, string>

  /** One child process: its argument vector and the environment it is given. */
  datatype Invocation = Invocation(argv: seq<string>, env: Env)

  /** The exceptions the modelled code can raise. */
  datatype Error =
    | KeyError(key: string)       // dict lookup or `del` of a missing key
    | IndexError                  // list index out of range
    | TypeError(message: string)  // a call with a missing positional argument
    | ValueError(text: string)    // int() of something that is not a number
    | FileNotFound(path: string)  // os.listdir of a directory that does not exist

  /** The processes a script started, in order, and the exception that ended it, if any. */
  datatype Trace = Trace(calls: seq<Invocation>, raised: Option<Error>)
}
