/** What the pages see of the world outside them: the hosted backend (its
    storage, tables and authentication), the random file names, and the
    toasts they show. */
module Platform {
  import opened Wrappers
  import opened Zod
  import opened Text

  /** A file the user picked; only its name matters to the pages. */
  datatype File = File(name: string, bytes: seq<bv8>)

  /** `${Math.random()}.${fileExt}`: the name a file is uploaded under; it
      keeps the extension of the file's own name. */
  function UploadName(stem: string, file: File): string {
    stem + "." + Extension(file.name)
  }

  /** The stored name keeps the extension of the chosen file. */
  lemma UploadNameKeepsExtension(stem: string, file: File)
    ensures Extension(UploadName(stem, file)) == Extension(file.name)
  {
    ExtensionIsLastPart(file.name);
    ExtensionAfterDot(stem, Extension(file.name));
  }

  /** A request to the backend; `Row` is the payload type of the table the
      page writes to. */
  datatype Request<Row> =
    | Upload(bucket: string, path: string, file: File)
    | Insert(table: string, row: Row)
    | Update(table: string, row: Row, id: string)
    | Delete(table: string, id: string)
    | SignInWithPassword(email: string, password: string)
    | SignUp(email: string, password: string, emailRedirectTo: string)

  /** The backend's answer: success, or an error with its message. */
  datatype Reply = Done | Failed(message: string)

  datatype Exchange<Row> = Exchange(request: Request<Row>, reply: Reply)

  /** Everything outside a page that decides what a submission does: the
      reply to the n-th call the page makes, the random stem
      (`Math.random()`) of a file name uploaded as the n-th call, and the
      public URL storage gives to a path in a bucket. */
  datatype Environment<!Row> = Environment(
    respond: (nat, Request<Row>) -> Reply,
    randomName: nat -> string,
    publicUrl: (string, string) -> string)

  /** The `n`-th call a page makes with `request`, together with its reply. */
  function Answer<Row>(env: Environment<Row>, n: nat, request: Request<Row>): (e: Exchange<Row>)
    ensures e.request == request
  {
    Exchange(request, env.respond(n, request))
  }

  /** The hosted backend as one page sees it: every call is recorded with
      its reply, and the reply is the environment's answer to that call. */
  class Service<Row> {
    const env: Environment<Row>
    var log: seq<Exchange<Row>>

    constructor (env: Environment<Row>)
      ensures this.env == env && log == []
    {
      this.env := env;
      log := [];
    }

    method Call(request: Request<Row>) returns (reply: Reply)
      modifies this
      ensures log == old(log) + [Answer(env, |old(log)|, request)]
      ensures reply == env.respond(|old(log)|, request)
    {
      reply := env.respond(|log|, request);
      log := log + [Exchange(request, reply)];
    }
  }

  /** A toast: `toast.success(m)` and `toast.error(m)` carry only a title;
      `toast({title, description, variant})` carries both. */
  datatype Toast = Toast(destructive: bool, title: Message, description: Option<Message>)

  function SuccessToast(text: string): Toast {
    Toast(false, Text(text), None)
  }

  function ErrorToast(m: Message): Toast {
    Toast(true, m, None)
  }
}
