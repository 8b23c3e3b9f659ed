/**
 * The HTTP request handler of the server command: a switch on the request
 * path, where /deployments writes the informer's Deployment names as a JSON
 * array of strings into the response one piece at a time.
 */
module Server {
  import Informer

  /** The response side of a request context: status, headers and body buffer. */
  class ResponseCtx {
    var status: int
    var headers: map<string, string>
    var body: string

    /** A fresh response: status 200, no headers, empty body. */
    constructor ()
      ensures status == 200 && headers == map[] && body == ""
    {
      status := 200;
      headers := map[];
      body := "";
    }

    method WriteString(s: string)
      modifies this
      ensures body == old(body) + s
      ensures status == old(status) && headers == old(headers)
    {
      body := body + s;
    }

    method SetStatusCode(code: int)
      modifies this
      ensures status == code
      ensures body == old(body) && headers == old(headers)
    {
      status := code;
    }

    method SetHeader(name: string, value: string)
      modifies this
      ensures headers == old(headers)[name := value]
      ensures body == old(body) && status == old(status)
    {
      headers := headers[name := value];
    }
  }

  function Quote(name: string): string {
    "\"" + name + "\""
  }

  /** The names, each in double quotes as it is (no escaping), separated by single commas. */
  function JoinQuoted(names: seq<string>): (r: string)
    ensures names == [] <==> r == ""
  {
    if names == [] then ""
    else if |names| == 1 then Quote(names[0])
    else Quote(names[0]) + "," + JoinQuoted(names[1..])
  }

  /** The body /deployments writes: bracketed, and `[]` exactly for no names. */
  function JsonArray(names: seq<string>): (r: string)
    ensures |r| >= 2 && r[0] == '[' && r[|r| - 1] == ']'
    ensures r == "[]" <==> names == []
  {
    "[" + JoinQuoted(names) + "]"
  }

  const Healthz := "/healthz"
  const Deployments := "/deployments"
  const Greeting := "Hello from FastHTTP!"

  /**
   * What the handler appends to the body for `path`: "OK" exactly on
   * /healthz, a JSON array exactly on /deployments, and the greeting
   * exactly on every other path.
   */
  function BodyFor(path: string, names: seq<string>): (r: string)
    ensures |r| >= 2
    ensures r == "OK" <==> path == Healthz
    ensures path == Deployments ==> r == JsonArray(names)
    ensures r[0] == '[' <==> path == Deployments
    ensures r == Greeting <==> path != Healthz && path != Deployments
  {
    if path == Healthz then "OK"
    else if path == Deployments then JsonArray(names)
    else Greeting
  }

  /**
   * Serves one request. `requestId` stands for the generated request id;
   * the Deployment names are those the informer reports.
   */
  method Handle(path: string, requestId: string, informer: Informer.DeploymentInformer, ctx: ResponseCtx)
    modifies ctx
    ensures ctx.body == old(ctx.body) + BodyFor(path, if informer.started then Informer.CachedNames(informer.cache) else [])
    ensures ctx.status == if path == Deployments then 200 else old(ctx.status)
    ensures ctx.headers == if path == Deployments
      then old(ctx.headers)["X-Request-ID" := requestId]["Content-Type" := "application/json"]
      else old(ctx.headers)["X-Request-ID" := requestId]
  {
    ctx.SetHeader("X-Request-ID", requestId);
    if path == Healthz {
      ctx.WriteString("OK");
    } else if path == Deployments {
      ctx.SetHeader("Content-Type", "application/json");
      var deployments := informer.GetDeploymentsNames();
      ctx.SetStatusCode(200);
      WriteNames(deployments, ctx);
    } else {
      ctx.WriteString(Greeting);
    }
  }

  /** Writes `[`, then each name in quotes with a comma after all but the last, then `]`. */
  method WriteNames(deployments: seq<string>, ctx: ResponseCtx)
    modifies ctx
    ensures ctx.body == old(ctx.body) + JsonArray(deployments)
    ensures ctx.status == old(ctx.status) && ctx.headers == old(ctx.headers)
  {
    ghost var start := ctx.body;
    ctx.WriteString("[");
    var i := 0;
    while i < |deployments|
      invariant 0 <= i <= |deployments|
      invariant ctx.status == old(ctx.status) && ctx.headers == old(ctx.headers)
      invariant ctx.body == start + "[" + JoinQuoted(deployments[..i]) + Separator(i, |deployments|)
    {
      WriteQuoted(deployments[i], ctx);
      NextPrefix(start, deployments, i);
      if i < |deployments| - 1 {
        ctx.WriteString(",");
      }
      i := i + 1;
    }
    ctx.WriteString("]");
    assert deployments[..i] == deployments;
  }

  /** Writes one name between double quotes. */
  method WriteQuoted(name: string, ctx: ResponseCtx)
    modifies ctx
    ensures ctx.body == old(ctx.body) + Quote(name)
    ensures ctx.status == old(ctx.status) && ctx.headers == old(ctx.headers)
  {
    ctx.WriteString("\"");
    ctx.WriteString(name);
    ctx.WriteString("\"");
  }

  /** The comma already written after `i` of `n` names. */
  function Separator(i: nat, n: nat): string {
    if 0 < i < n then "," else ""
  }

  /** Writing name `i` in quotes after the first `i` names extends the prefix by one name. */
  lemma NextPrefix(start: string, names: seq<string>, i: nat)
    requires i < |names|
    ensures start + "[" + JoinQuoted(names[..i]) + Separator(i, |names|) + Quote(names[i])
         == start + "[" + JoinQuoted(names[..i + 1])
  {
    var done := names[..i];
    var q := Quote(names[i]);
    assert names[..i + 1] == done + [names[i]];
    JoinSnoc(done, names[i]);
    if i == 0 {
      assert done == [] && Separator(i, |names|) == "";
      assert JoinQuoted(names[..i + 1]) == q;
      assert start + "[" + JoinQuoted(done) + "" + q == start + "[" + q;
    } else {
      assert done != [] && Separator(i, |names|) == ",";
      var j := JoinQuoted(done);
      assert JoinQuoted(names[..i + 1]) == j + "," + q;
      assert start + "[" + j + "," + q == start + "[" + (j + "," + q);
    }
  }

  /** Appending a name adds a comma only when there was a name before it. */
  lemma {:induction false} JoinSnoc(names: seq<string>, name: string)
    ensures JoinQuoted(names + [name]) == if names == [] then Quote(name) else JoinQuoted(names) + "," + Quote(name)
  {
    var longer := names + [name];
    if names == [] {
      assert longer == [name];
    } else {
      assert longer[0] == names[0] && |longer| >= 2;
      assert JoinQuoted(longer) == Quote(names[0]) + "," + JoinQuoted(longer[1..]);
      if |names| == 1 {
        assert longer[1..] == [name];
      } else {
        assert longer[1..] == names[1..] + [name];
        JoinSnoc(names[1..], name);
        assert JoinQuoted(names) == Quote(names[0]) + "," + JoinQuoted(names[1..]);
      }
    }
  }

  function Count(c: char, s: string): nat {
    if s == [] then 0 else (if s[0] == c then 1 else 0) + Count(c, s[1..])
  }

  lemma {:induction false} CountAppend(c: char, a: string, b: string)
    ensures Count(c, a + b) == Count(c, a) + Count(c, b)
  {
    if a != [] {
      CountAppend(c, a[1..], b);
      assert (a + b)[1..] == a[1..] + b;
    } else {
      assert a + b == b;
    }
  }

  /** Names without commas: n names are separated by exactly n - 1 commas. */
  lemma {:induction false} CommasBetweenNames(names: seq<string>)
    requires forall i | 0 <= i < |names| :: Count(',', names[i]) == 0
    ensures Count(',', JoinQuoted(names)) == if names == [] then 0 else |names| - 1
  {
    if |names| >= 1 {
      var q := Quote(names[0]);
      CountAppend(',', "\"", names[0]);
      CountAppend(',', "\"" + names[0], "\"");
      assert Count(',', "\"") == 0;
      if |names| >= 2 {
        CommasBetweenNames(names[1..]);
        CountAppend(',', q, ",");
        CountAppend(',', q + ",", JoinQuoted(names[1..]));
        assert Count(',', ",") == 1;
      }
    }
  }

  /** The /deployments body for no names is exactly "[]"; for one name it is that name in quotes. */
  lemma SmallArrays(name: string)
    ensures JsonArray([]) == "[]"
    ensures JsonArray([name]) == "[\"" + name + "\"]"
  {
  }

  /**
   * The body starts with '[', ends with ']', and between them holds every
   * name in order, each in quotes, with one comma after every name but the
   * last.
   */
  lemma {:induction false} JsonArrayShape(names: seq<string>)
    ensures JsonArray(names) == "[" + Pieces(names) + "]"
  {
    JoinIsPieces(names);
  }

  /** Name i in quotes, then a comma unless it is the last name. */
  function Piece(names: seq<string>, i: nat): string
    requires i < |names|
  {
    Quote(names[i]) + (if i < |names| - 1 then "," else "")
  }

  /** The pieces of all names, concatenated in order. */
  function Pieces(names: seq<string>): string {
    PiecesFrom(names, 0)
  }

  function PiecesFrom(names: seq<string>, i: nat): string
    requires i <= |names|
    decreases |names| - i
  {
    if i == |names| then "" else Piece(names, i) + PiecesFrom(names, i + 1)
  }

  lemma {:induction false} PiecesShift(names: seq<string>, i: nat)
    requires 1 <= i <= |names|
    ensures PiecesFrom(names, i) == PiecesFrom(names[1..], i - 1)
    decreases |names| - i
  {
    if i < |names| {
      PiecesShift(names, i + 1);
      assert Piece(names, i) == Piece(names[1..], i - 1);
    }
  }

  lemma {:induction false} JoinIsPieces(names: seq<string>)
    ensures JoinQuoted(names) == Pieces(names)
  {
    if |names| == 1 {
      assert Pieces(names) == Piece(names, 0) + PiecesFrom(names, 1);
    } else if |names| >= 2 {
      JoinIsPieces(names[1..]);
      PiecesShift(names, 1);
      assert Pieces(names) == Piece(names, 0) + PiecesFrom(names, 1);
    }
  }
}
