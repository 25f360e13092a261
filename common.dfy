/** Values shared by both pipeline variants and their front ends: Python call outcomes, request
    values, the external effects a job performs, and its terminal result. */
module Common {
  import opened Text

  datatype Option<T> = None | Some(value: T)

  /** A Python call that either returns a value or raises; `message` is `str(e)`. */
  datatype Attempt<T> = Returned(value: T) | Raised(message: string)

  /** A scalar taken from a JSON object; `Null` also stands for a key `dict.get` does not find. */
  datatype Value = Null | Str(s: string) | Num(n: int) | Bool(b: bool)

  /** Python truthiness of a JSON scalar. */
  predicate Truthy(v: Value) {
    match v
    case Null => false
    case Str(s) => s != ""
    case Num(n) => n != 0
    case Bool(b) => b
  }

  /** `d.get(k)` on a JSON object. */
  function Get(d: map<string, Value>, k: string): Value {
    if k in d then d[k] else Null
  }

  /** Python's `a or b`. */
  function Or(a: Value, b: Value): Value {
    if Truthy(a) then a else b
  }

  /** `str(v)`, as an f-string renders the value. */
  function PyStr(v: Value): string {
    match v
    case Null => "None"
    case Str(s) => s
    case Num(n) => IntString(n)
    case Bool(b) => if b then "True" else "False"
  }

  /** What `subprocess.run` yields: an exit status with the captured stderr, or an exception
      (a `TimeoutExpired`, a missing executable). */
  datatype Proc = Exited(code: int, stderr: string) | Crashed(message: string)

  predicate ExitedZero(p: Proc) {
    p.Exited? && p.code == 0
  }

  /** What one run of the Wan2.2 model leaves behind: the two subprocess outcomes, the names
      `os.listdir` reports in the processing directory, the paths that exist afterwards with their
      sizes in bytes, and whether `shutil.move` of the discovered file succeeds. */
  datatype ModelRun = ModelRun(preprocess: Proc, generate: Proc, listing: seq<string>,
                               files: map<string, nat>, moveOk: bool)

  /** The webhook body `{status, record_id, output_url, error_message}`. */
  datatype Payload = Payload(status: string, recordId: Value, outputUrl: string, errorMessage: string)

  /** An externally visible step of a job, in the order the job performs it. */
  datatype Effect =
    | MakeTempDir(dir: string)
    | MakeDirs(dir: string)
    | Download(source: Value, dest: string)
    | Run(argv: seq<string>)
    | WriteFile(path: string, text: string)
    | Move(src: string, dst: string)
    | Upload(file: string, bucket: string, key: string)
    | PostWebhook(hook: string, payload: Payload)
    | RemoveTree(dir: string)

  /** The dict a pipeline returns: `{'status': 'success', 'output_url': ...}` or `{'status': 'failed', 'error': ...}`. */
  datatype JobResult = Success(outputUrl: string) | Failed(error: string)
}
