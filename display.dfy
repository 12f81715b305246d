/**
 * The display service's window path (display.go): opening a window from
 * defaults and options, reading an open-window request out of an untyped
 * message, and routing inbound messages. The toolkit itself is a boundary:
 * the operations here return the toolkit record they would hand to it.
 */
module Display {
  import opened Window

  datatype Option<T> = None | Some(value: T) {
    function GetOr(default: T): T
    {
      match this
      case Some(v) => v
      case None => default
    }
  }

  /** The toolkit's window-creation record, restricted to the attributes this service fills in. */
  datatype WebviewWindowOptions = WebviewWindowOptions(name: string, title: string, width: int, height: int, url: string)

  /** The configuration OpenWindow starts from. */
  const Defaults := Config("main", "Core", 1280, 800, "/")

  // ---------------------------------------------------------------------
  // Opening a window from options
  // ---------------------------------------------------------------------

  /** The configuration left after applying `opts` to `c` in order, first to last. */
  function Fold(c: Config, opts: seq<WindowOption>): Config
    decreases |opts|
  {
    if opts == [] then c else Applied(opts[|opts| - 1], Fold(c, opts[..|opts| - 1]))
  }

  /** The field-for-field copy of a finalized configuration into the toolkit's record. */
  function Translate(c: Config): (w: WebviewWindowOptions)
    ensures w.name == c.name && w.title == c.title && w.url == c.url
    ensures w.width == c.width && w.height == c.height
  {
    WebviewWindowOptions(c.name, c.title, c.width, c.height, c.url)
  }

  /** Translation loses nothing: different configurations give different toolkit records. */
  lemma TranslateInjective(a: Config, b: Config)
    requires Translate(a) == Translate(b)
    ensures a == b
  {
  }

  /**
   * OpenWindow: starts from the defaults, applies every option in order to
   * one record, and returns the toolkit record it would create the window from.
   */
  method OpenWindow(opts: seq<WindowOption>) returns (wailsOpts: WebviewWindowOptions)
    ensures wailsOpts == Translate(Fold(Defaults, opts))
    ensures opts == [] ==> wailsOpts == WebviewWindowOptions("main", "Core", 1280, 800, "/")
  {
    var winOpts := new WindowConfig(Defaults);
    for i := 0 to |opts|
      invariant winOpts.Value() == Fold(Defaults, opts[..i])
    {
      assert opts[..i + 1][..i] == opts[..i];
      Apply(opts[i], winOpts);
    }
    assert opts[..|opts|] == opts;
    wailsOpts := WebviewWindowOptions(winOpts.name, winOpts.title, winOpts.width, winOpts.height, winOpts.url);
  }

  /** Applying `s` and then `t` is applying `s + t`: options meet only through the shared record. */
  lemma {:induction false} FoldConcat(c: Config, s: seq<WindowOption>, t: seq<WindowOption>)
    ensures Fold(c, s + t) == Fold(Fold(c, s), t)
    decreases |t|
  {
    if t == [] {
      assert s + t == s;
    } else {
      var n := |t| - 1;
      assert (s + t)[..|s + t| - 1] == s + t[..n];
      assert (s + t)[|s + t| - 1] == t[n];
      FoldConcat(c, s, t[..n]);
    }
  }

  /** An attribute that no option in `opts` writes keeps the value it started with. */
  lemma {:induction false} FoldUntouched(c: Config, opts: seq<WindowOption>, f: Field)
    requires forall j :: 0 <= j < |opts| ==> Leaves(opts[j], f)
    ensures Get(Fold(c, opts), f) == Get(c, f)
    decreases |opts|
  {
    if opts != [] {
      var n := |opts| - 1;
      assert Leaves(opts[n], f);
      FoldUntouched(c, opts[..n], f);
    }
  }

  /**
   * Last write wins: if option k writes attribute f and no later option
   * touches f, the final configuration holds option k's value.
   */
  lemma {:induction false} FoldLastWins(c: Config, opts: seq<WindowOption>, k: nat, f: Field)
    requires k < |opts| && !opts[k].Custom? && FieldOf(opts[k]) == f
    requires forall j :: k < j < |opts| ==> Leaves(opts[j], f)
    ensures Get(Fold(c, opts), f) == Written(opts[k])
  {
    var prefix, suffix := opts[..k + 1], opts[k + 1..];
    assert opts == prefix + suffix;
    FoldConcat(c, prefix, suffix);
    assert prefix[..k] == opts[..k];
    assert Get(Fold(c, prefix), f) == Written(opts[k]);
    forall j | 0 <= j < |suffix| ensures Leaves(suffix[j], f) {
      assert suffix[j] == opts[k + 1 + j];
    }
    FoldUntouched(Fold(c, prefix), suffix, f);
  }

  /** Applying the same With* option n >= 1 times gives what applying it once gives. */
  lemma {:induction false} RepeatedOptionIsOnce(o: WindowOption, c: Config, n: nat)
    requires !o.Custom? && n >= 1
    ensures Fold(c, seq(n, _ => o)) == Applied(o, c)
  {
    var opts := seq(n, _ => o);
    if n == 1 {
      assert opts[..0] == [];
    } else {
      assert opts[..n - 1] == seq(n - 1, _ => o);
      RepeatedOptionIsOnce(o, c, n - 1);
      ApplyIdempotent(o, c);
    }
  }

  /** A caller's own option that rewrites every attribute to `v` overrides all the defaults. */
  lemma OverrideAllDefaults(v: Config)
    ensures Translate(Fold(Defaults, [Custom(_ => v)])) == Translate(v)
  {
    assert [Custom(_ => v)][..0] == [];
  }

  // ---------------------------------------------------------------------
  // Reading an open-window request from an untyped message
  // ---------------------------------------------------------------------

  /**
   * A dynamically typed value in a message bag: a string, a number (the
   * decoder's float64, assumed integral), a nested bag, or anything else.
   */
  datatype Val = Str(s: string) | Num(n: int) | Map(m: map<string, Val>) | Other

  /** The value found by following `path` through nested bags from `v`, if every step exists. */
  function At(v: Val, path: seq<string>): Option<Val>
    decreases |path|
  {
    if path == [] then Some(v)
    else if v.Map? && path[0] in v.m then At(v.m[path[0]], path[1..])
    else None
  }

  /** The string at `path` in `bag`, if there is one and it is a string. */
  function StrAt(bag: map<string, Val>, path: seq<string>): Option<string>
  {
    match At(Map(bag), path)
    case Some(Str(s)) => Some(s)
    case _ => None
  }

  /** The number at `path` in `bag`, if there is one and it is a number. */
  function NumAt(bag: map<string, Val>, path: seq<string>): Option<int>
  {
    match At(Map(bag), path)
    case Some(Num(n)) => Some(n)
    case _ => None
  }

  /**
   * The toolkit record a message asks for: each of name, options.Title,
   * options.Width and options.Height is taken when it is there with the right
   * type and is the zero value otherwise; URL is never read.
   */
  function ParseWindowOptions(msg: map<string, Val>): WebviewWindowOptions
  {
    WebviewWindowOptions(
      StrAt(msg, ["name"]).GetOr(""),
      StrAt(msg, ["options", "Title"]).GetOr(""),
      NumAt(msg, ["options", "Width"]).GetOr(0),
      NumAt(msg, ["options", "Height"]).GetOr(0),
      "")
  }

  /**
   * handleOpenWindowAction: starts from the zero record and assigns each
   * attribute whose key is present with the right type, then returns the
   * record it would create the window from.
   */
  method HandleOpenWindowAction(msg: map<string, Val>) returns (opts: WebviewWindowOptions)
    ensures opts == ParseWindowOptions(msg)
  {
    opts := WebviewWindowOptions("", "", 0, 0, "");
    if "name" in msg && msg["name"].Str? {
      opts := opts.(name := msg["name"].s);
    }
    if "options" in msg && msg["options"].Map? {
      var optsMap := msg["options"].m;
      if "Title" in optsMap && optsMap["Title"].Str? {
        opts := opts.(title := optsMap["Title"].s);
      }
      if "Width" in optsMap && optsMap["Width"].Num? {
        opts := opts.(width := optsMap["Width"].n);
      }
      if "Height" in optsMap && optsMap["Height"].Num? {
        opts := opts.(height := optsMap["Height"].n);
      }
    }
  }

  /** An empty message asks for the all-zero record. */
  lemma ParseEmpty()
    ensures ParseWindowOptions(map[]) == WebviewWindowOptions("", "", 0, 0, "")
  {
  }

  /** Name is taken exactly when "name" holds a string; otherwise it stays empty. */
  lemma ParseName(msg: map<string, Val>)
    ensures "name" in msg && msg["name"].Str? ==> ParseWindowOptions(msg).name == msg["name"].s
    ensures !("name" in msg && msg["name"].Str?) ==> ParseWindowOptions(msg).name == ""
  {
  }

  /** A message with a name and nothing else sets only Name. */
  lemma ParseNameOnly(name: string)
    ensures ParseWindowOptions(map["name" := Str(name)]) == WebviewWindowOptions(name, "", 0, 0, "")
  {
  }

  /** A well-typed message sets every attribute it carries. */
  lemma ParseValidOptions()
    ensures var msg := map["name" := Str("main"),
                           "options" := Map(map["Title" := Str("My App"), "Width" := Num(1024), "Height" := Num(768)])];
            ParseWindowOptions(msg) == WebviewWindowOptions("main", "My App", 1024, 768, "")
  {
  }

  /** Top-level keys other than "name" and "options" are ignored. */
  lemma ParseIgnoresUnknownKey(msg: map<string, Val>, k: string, v: Val)
    requires k != "name" && k != "options"
    ensures ParseWindowOptions(msg[k := v]) == ParseWindowOptions(msg)
  {
  }

  /** Keys of the options bag other than Title, Width and Height are ignored. */
  lemma ParseIgnoresUnknownOption(msg: map<string, Val>, sub: map<string, Val>, k: string, v: Val)
    requires k != "Title" && k != "Width" && k != "Height"
    ensures ParseWindowOptions(msg["options" := Map(sub[k := v])]) == ParseWindowOptions(msg["options" := Map(sub)])
  {
  }

  /**
   * An option of the wrong type is skipped: the message parses as if that key
   * were absent, so its attribute stays zero and the others are still applied.
   */
  lemma ParseSkipsIllTypedOption(msg: map<string, Val>, sub: map<string, Val>, k: string)
    requires k in sub
    requires (k == "Title" && !sub[k].Str?) || ((k == "Width" || k == "Height") && !sub[k].Num?)
    ensures ParseWindowOptions(msg["options" := Map(sub)]) == ParseWindowOptions(msg["options" := Map(sub - {k})])
  {
  }

  // ---------------------------------------------------------------------
  // Routing inbound messages
  // ---------------------------------------------------------------------

  /** The action tag that asks for a window to be opened from an untyped message. */
  const OpenWindowTag := "display.open_window"

  /**
   * An inbound message, by its dynamic type: an untyped bag, the typed
   * open-window action, the service-startup signal, or a value of any other
   * type (named by its type for the log). Unrecognised holds only values
   * whose dynamic type is none of the three handled ones; its type name is
   * a label and does not decide how the message is routed.
   */
  datatype Message =
    | Bag(bag: map<string, Val>)
    | ActionOpenWindow(options: WebviewWindowOptions)
    | ActionServiceStartup
    | Unrecognised(typeName: string)

  /** What handling a message does. */
  datatype Outcome =
    | OpenFromBag(request: WebviewWindowOptions)    // create a window from the parsed bag
    | OpenFromStruct(request: WebviewWindowOptions) // create a window from the typed action
    | StartService                                  // run the service startup
    | Ignored                                       // a bag without the open-window tag: nothing happens
    | LoggedUnknown(typeName: string)               // log "unknown message type" and drop it

  /** HandleIPCEvents: classifies a message by its dynamic type and, for a bag, its action tag. */
  function HandleIPCEvents(msg: Message): (out: Outcome)
    ensures out.OpenFromBag? <==> msg.Bag? && StrAt(msg.bag, ["action"]) == Some(OpenWindowTag)
    ensures out.OpenFromBag? ==> out.request == ParseWindowOptions(msg.bag)
    ensures out.Ignored? <==> msg.Bag? && StrAt(msg.bag, ["action"]) != Some(OpenWindowTag)
    ensures out.OpenFromStruct? <==> msg.ActionOpenWindow?
    ensures out.OpenFromStruct? ==> out.request == msg.options
    ensures out.StartService? <==> msg.ActionServiceStartup?
    ensures out.LoggedUnknown? <==> msg.Unrecognised?
    ensures out.LoggedUnknown? ==> out.typeName == msg.typeName
  {
    match msg
    case Bag(m) =>
      if "action" in m && m["action"].Str? && m["action"].s == OpenWindowTag
      then OpenFromBag(ParseWindowOptions(m))
      else Ignored
    case ActionOpenWindow(o) => OpenFromStruct(o)
    case ActionServiceStartup => StartService
    case Unrecognised(t) => LoggedUnknown(t)
  }
}
