/** The reception desk (src/reception.rs): it wires assistants, callback
    crypto agents and messengers together from the configuration, answers
    the URL handshake, and takes each user message through decryption,
    account checks, instructions and the assistant. Sending replies is I/O;
    a request's result here is what it would send back, or that it sends
    nothing. */
module Reception {

  import opened Common
  import opened Strings
  import Core
  import Rows
  import S = Storage
  import P = ProviderOpenAi
  import A = Assistant
  import Acc = Accountant
  import opened WecomApi

  const ENV_MISSING: string := "找不到环境变量"
  const STORAGE_INIT_FAILED: string := "数据库初始化失败。"
  const BAD_REQUEST: nat := 400
  const INTERNAL_SERVER_ERROR: nat := 500

  // ---------------------------------------------------------------------
  // Configuration

  datatype WecomCfg = WecomCfg(corpId: string)

  /** One configured assistant; `token`, `key`, `secret` name environment
      variables. */
  datatype AssistantCfg = AssistantCfg(
    agentId: nat, name: string, token: string, key: string, secret: string, prompt: string,
    providerId: nat, reservation: nat)

  /** The configuration file. Provider `endpoint` and `apiKey`, the
      accountant's `token` and `key`, `corpId` and `adminAccount` name
      environment variables. */
  datatype Config = Config(
    wecom: WecomCfg, providers: seq<P.Config>, assistants: seq<AssistantCfg>,
    accountant: Acc.Config, storagePath: string, adminAccount: string)

  /** A `WecomAgent`: the message sender of one application. */
  datatype Messenger = Messenger(corpId: string, secret: string)

  /** The value of an environment variable, or "" when it is unset. */
  function Lookup(env: string -> Option<string>, name: string): string
  {
    if env(name).Some? then env(name).value else ""
  }

  /** `env::var(name)` with `to_local_err`. */
  function Fetch(env: string -> Option<string>, name: string): (r: Result<string, string>)
    ensures r.Ok? <==> env(name).Some?
    ensures r.Ok? ==> r.value == Lookup(env, name)
    ensures r.Err? ==> r.error == ENV_MISSING + name
  {
    match env(name)
    case None => Err(ENV_MISSING + name)
    case Some(v) => Ok(v)
  }

  /** The first of the names that is unset, in order. */
  function FirstMissing(names: seq<string>, env: string -> Option<string>): (r: Option<string>)
    ensures r.None? <==> forall i :: 0 <= i < |names| ==> env(names[i]).Some?
    ensures r.Some? ==> env(r.value).None?
  {
    if names == [] then None
    else if env(names[0]).None? then Some(names[0])
    else FirstMissing(names[1..], env)
  }

  lemma {:induction false} FirstMissingAppend(a: seq<string>, b: seq<string>, env: string -> Option<string>)
    ensures FirstMissing(a + b, env) == if FirstMissing(a, env).Some? then FirstMissing(a, env)
                                        else FirstMissing(b, env)
  {
    if a == [] {
      assert a + b == b;
    } else {
      assert (a + b)[0] == a[0] && (a + b)[1..] == a[1..] + b;
      FirstMissingAppend(a[1..], b, env);
    }
  }

  /** Variables the provider loop reads for an assistant: the endpoint and
      key of every provider with its id. */
  function ProviderVars(ps: seq<P.Config>, providerId: nat): seq<string>
  {
    if ps == [] then []
    else (if ps[0].id == providerId then [ps[0].endpoint, ps[0].apiKey] else [])
         + ProviderVars(ps[1..], providerId)
  }

  /** Variables read for one assistant, in order. */
  function AssistantVars(cfg: Config, a: AssistantCfg): seq<string>
  {
    [a.token, a.key, cfg.wecom.corpId, a.secret] + ProviderVars(cfg.providers, a.providerId)
  }

  function LoopVars(cfg: Config, cfgs: seq<AssistantCfg>): seq<string>
  {
    if cfgs == [] then [] else AssistantVars(cfg, cfgs[0]) + LoopVars(cfg, cfgs[1..])
  }

  /** Every variable `Agent::new` reads after the administrator's name, in
      the order it reads them. */
  function SetupVars(cfg: Config): seq<string>
  {
    LoopVars(cfg, cfg.assistants) + [cfg.accountant.token, cfg.accountant.key]
  }

  /** Without assistants the corporation id is never read. */
  lemma SetupVarsWithoutAssistants(cfg: Config)
    requires cfg.assistants == []
    ensures SetupVars(cfg) == [cfg.accountant.token, cfg.accountant.key]
  {
  }

  /** A provider with its endpoint and key read from the environment. */
  function Resolved(p: P.Config, env: string -> Option<string>): P.Config
  {
    p.(endpoint := Lookup(env, p.endpoint), apiKey := Lookup(env, p.apiKey))
  }

  /** The crypto-agent map after inserting each assistant in turn; a later
      assistant with the same id replaces an earlier one. */
  function CryptoAgentsOf(cfgs: seq<AssistantCfg>, env: string -> Option<string>,
                          newCrypto: (string, string) -> CallbackCrypto): map<nat, CallbackCrypto>
  {
    if cfgs == [] then map[]
    else
      var a := cfgs[|cfgs| - 1];
      CryptoAgentsOf(cfgs[..|cfgs| - 1], env, newCrypto)[a.agentId := newCrypto(Lookup(env, a.token), Lookup(env, a.key))]
  }

  function MessengersOf(cfg: Config, cfgs: seq<AssistantCfg>, env: string -> Option<string>): map<nat, Messenger>
  {
    if cfgs == [] then map[]
    else
      var a := cfgs[|cfgs| - 1];
      MessengersOf(cfg, cfgs[..|cfgs| - 1], env)[a.agentId := Messenger(Lookup(env, cfg.wecom.corpId), Lookup(env, a.secret))]
  }

  /** What an `Assistant` is built from. */
  datatype AssistantSetup = AssistantSetup(id: nat, prompt: string, reservation: nat, provider: P.Config)

  function Setup(a: A.Assistant): AssistantSetup
  {
    AssistantSetup(a.id, a.prompt, a.reservation, a.provider)
  }

  function SetupsOf(m: map<nat, A.Assistant>): map<nat, AssistantSetup>
  {
    map k | k in m :: Setup(m[k])
  }

  /** The inner loop: one entry per matching provider, the last one kept. */
  function WithProviders(m: map<nat, AssistantSetup>, a: AssistantCfg, ps: seq<P.Config>,
                         env: string -> Option<string>): map<nat, AssistantSetup>
  {
    if ps == [] then m
    else
      var before := WithProviders(m, a, ps[..|ps| - 1], env);
      var p := ps[|ps| - 1];
      if p.id == a.providerId
      then before[a.agentId := AssistantSetup(a.agentId, a.prompt, a.reservation, Resolved(p, env))]
      else before
  }

  function AssistantsOf(cfg: Config, cfgs: seq<AssistantCfg>, env: string -> Option<string>)
    : map<nat, AssistantSetup>
  {
    if cfgs == [] then map[]
    else WithProviders(AssistantsOf(cfg, cfgs[..|cfgs| - 1], env), cfgs[|cfgs| - 1], cfg.providers, env)
  }

  predicate HasProvider(ps: seq<P.Config>, providerId: nat)
  {
    exists j :: 0 <= j < |ps| && ps[j].id == providerId
  }

  /** Every configured assistant gets a crypto agent under its id. */
  lemma {:induction false} CryptoAgentsKeys(cfgs: seq<AssistantCfg>, env: string -> Option<string>,
                                            newCrypto: (string, string) -> CallbackCrypto)
    ensures CryptoAgentsOf(cfgs, env, newCrypto).Keys == set i | 0 <= i < |cfgs| :: cfgs[i].agentId
  {
    if cfgs != [] {
      var init := cfgs[..|cfgs| - 1];
      CryptoAgentsKeys(init, env, newCrypto);
      assert (set i | 0 <= i < |cfgs| :: cfgs[i].agentId)
          == (set i | 0 <= i < |init| :: init[i].agentId) + {cfgs[|cfgs| - 1].agentId};
    }
  }

  lemma {:induction false} WithProvidersKeys(m: map<nat, AssistantSetup>, a: AssistantCfg, ps: seq<P.Config>,
                                             env: string -> Option<string>)
    ensures WithProviders(m, a, ps, env).Keys == if HasProvider(ps, a.providerId) then m.Keys + {a.agentId} else m.Keys
  {
    if ps != [] {
      var init := ps[..|ps| - 1];
      WithProvidersKeys(m, a, init, env);
      if HasProvider(ps, a.providerId) && ps[|ps| - 1].id != a.providerId {
        var j :| 0 <= j < |ps| && ps[j].id == a.providerId;
        assert init[j].id == a.providerId;
      }
      if HasProvider(init, a.providerId) {
        var j :| 0 <= j < |init| && init[j].id == a.providerId;
        assert ps[j].id == a.providerId;
      }
    }
  }

  /** An assistant entry exists exactly for the configured assistants whose
      provider is configured. */
  lemma {:induction false} AssistantsKeys(cfg: Config, cfgs: seq<AssistantCfg>, env: string -> Option<string>)
    ensures AssistantsOf(cfg, cfgs, env).Keys
         == set i | 0 <= i < |cfgs| && HasProvider(cfg.providers, cfgs[i].providerId) :: cfgs[i].agentId
  {
    if cfgs != [] {
      var init := cfgs[..|cfgs| - 1];
      AssistantsKeys(cfg, init, env);
      WithProvidersKeys(AssistantsOf(cfg, init, env), cfgs[|cfgs| - 1], cfg.providers, env);
      var withLast := set i | 0 <= i < |cfgs| && HasProvider(cfg.providers, cfgs[i].providerId) :: cfgs[i].agentId;
      var withInit := set i | 0 <= i < |init| && HasProvider(cfg.providers, init[i].providerId) :: init[i].agentId;
      if HasProvider(cfg.providers, cfgs[|cfgs| - 1].providerId) {
        assert withLast == withInit + {cfgs[|cfgs| - 1].agentId};
      } else {
        assert withLast == withInit;
      }
    }
  }

  /** With distinct ids, each assistant's crypto agent is built from its own
      token and key. */
  lemma {:induction false} CryptoAgentOfEach(cfgs: seq<AssistantCfg>, env: string -> Option<string>,
                                             newCrypto: (string, string) -> CallbackCrypto, i: nat)
    requires forall j, k :: 0 <= j < k < |cfgs| ==> cfgs[j].agentId != cfgs[k].agentId
    requires i < |cfgs|
    ensures cfgs[i].agentId in CryptoAgentsOf(cfgs, env, newCrypto)
    ensures CryptoAgentsOf(cfgs, env, newCrypto)[cfgs[i].agentId]
         == newCrypto(Lookup(env, cfgs[i].token), Lookup(env, cfgs[i].key))
  {
    if i < |cfgs| - 1 {
      CryptoAgentOfEach(cfgs[..|cfgs| - 1], env, newCrypto, i);
    }
  }

  lemma {:induction false} LoopVarsAppend(cfg: Config, a: seq<AssistantCfg>, b: seq<AssistantCfg>)
    ensures LoopVars(cfg, a + b) == LoopVars(cfg, a) + LoopVars(cfg, b)
  {
    if a == [] {
      assert a + b == b;
    } else {
      assert (a + b)[0] == a[0] && (a + b)[1..] == a[1..] + b;
      LoopVarsAppend(cfg, a[1..], b);
    }
  }

  /** Reading the next pending variable and finding it unset reports it as
      the first missing one. */
  lemma FirstMissingAt(read: seq<string>, pending: seq<string>, env: string -> Option<string>)
    requires FirstMissing(read, env).None? && pending != [] && env(pending[0]).None?
    ensures FirstMissing(read + pending, env) == Some(pending[0])
  {
    FirstMissingAppend(read, pending, env);
  }

  lemma FirstMissingCons(x: string, rest: seq<string>, env: string -> Option<string>)
    ensures FirstMissing([x] + rest, env) == if env(x).None? then Some(x) else FirstMissing(rest, env)
  {
    assert ([x] + rest)[0] == x && ([x] + rest)[1..] == rest;
  }

  /** Some name is missing as soon as one of them is. */
  lemma SomeMissing(names: seq<string>, k: nat, env: string -> Option<string>)
    requires k < |names| && env(names[k]).None?
    ensures FirstMissing(names, env).Some?
  {
  }

  lemma FirstMissingExtend(read: seq<string>, name: string, env: string -> Option<string>)
    requires FirstMissing(read, env).None? && env(name).Some?
    ensures FirstMissing(read + [name], env).None?
  {
    FirstMissingAppend(read, [name], env);
  }

  // ---------------------------------------------------------------------
  // Instructions

  const LIST_GUESTS: string := "查用户"
  const TOP_UP: string := "充值"
  const MAKE_ADMIN: string := "管理员"
  const CHECK_BALANCE: string := "#查余额"
  const CHECK_COST: string := "#查消耗"
  const NEW_CONVERSATION: string := "#新会话"

  const GUESTS_UNAVAILABLE: string := "无法从数据库中获得用户"
  const CREDIT_PARSE_FAILED: string := "用户余额解析出错"
  const USER_MISSING: string := "无法找到用户。"
  const CREDIT_UPDATE_FAILED: string := "更新用户余额出错："
  const CREDIT_UPDATED: string := "更新成功。当前余额："
  const ADMIN_PARSE_FAILED: string := "管理员属性解析出错。"
  const ADMIN_UPDATE_FAILED: string := "更新管理员属性出错："
  const ADMIN_UPDATED: string := "更新成功。"
  const BECAME_ADMIN: string := "已成为管理员"
  const NO_LONGER_ADMIN: string := "不再是管理员"
  const UNKNOWN_INSTRUCTION: string := "未知指令"
  const NO_ASSISTANT: string := "内部错误，请稍后再试。"
  const BALANCE: string := "当前余额："
  const NEW_CONVERSATION_FAILED: string := "新建会话记录失败。"
  const NEW_CONVERSATION_STARTED: string := "新会话创建成功。您可以开始对话了。"
  const UNSUPPORTED: string := "抱歉，暂不支持当前指令。"

  /** Number formatting: `{}` and `{:.3}` of an `f64`, and the text
      `audit` makes of a bill. */
  datatype Format = Format(display: real -> string, fixed3: real -> string, audit: A.AuditReport -> string)

  /** `bool`'s `Display`. */
  function BoolText(b: bool): string
  {
    if b then "true" else "false"
  }

  /** `str::parse::<bool>`: exactly "true" or "false". */
  function ParseBool(s: string): (r: Option<bool>)
    ensures r.Some? <==> s == "true" || s == "false"
  {
    if s == "true" then Some(true) else if s == "false" then Some(false) else None
  }

  lemma ParseBoolRoundTrip(b: bool)
    ensures ParseBool(BoolText(b)) == Some(b)
  {
  }

  /** A message is an instruction when its trimmed text is wrapped in "$$",
      or its raw text starts with '#'. */
  predicate IsCommand(content: string)
  {
    (StartsWith(Trim(content), "$$") && EndsWith(Trim(content), "$$")) || StartsWith(content, "#")
  }

  /** Anything after '#' is an instruction, and so is a text wrapped in
      "$$", whatever White_Space surrounds it. */
  lemma CommandForms(p: string, body: string, q: string)
    requires forall k :: 0 <= k < |p| ==> IsWhitespace(p[k])
    requires forall k :: 0 <= k < |q| ==> IsWhitespace(q[k])
    ensures IsCommand("#" + body)
    ensures IsCommand(p + "$$" + body + "$$" + q)
  {
    var m := "$$" + body + "$$";
    assert p + m + q == p + "$$" + body + "$$" + q;
    TrimWrapped(p, m, q);
    assert m[..2] == "$$" && m[|m| - 2..] == "$$";
    assert ("#" + body)[..1] == "#";
  }

  /** A text whose first character is neither '#', '$' nor White_Space is
      a chat message. */
  lemma ChatForm(content: string)
    requires content != [] && content[0] != '#' && content[0] != '$' && !IsWhitespace(content[0])
    ensures !IsCommand(content)
  {
    var t := TrailingCount(content, IsWhitespace);
    assert LeadingCount(content, IsWhitespace) == 0;
    assert t < |content|;
    assert Trim(content) == content[..|content| - t];
  }

  /** What an administrator's instruction asks for, from its arguments. */
  datatype AdminCommand = ListGuests | TopUp(name: string, amount: string) | SetAdmin(name: string, flag: string) | Unknown

  function ParseAdminCommand(instruction: string): AdminCommand
  {
    var args := Split(TrimMatches(instruction, '$'), ' ');
    if args == [LIST_GUESTS] then ListGuests
    else if |args| == 3 && args[1] == TOP_UP then TopUp(args[0], args[2])
    else if |args| == 3 && args[1] == MAKE_ADMIN then SetAdmin(args[0], args[2])
    else Unknown
  }

  /** "$$<name> 充值 <amount>$$" asks to top up that guest by that amount,
      for a name and amount without spaces that the '$' trimming leaves
      intact. */
  lemma ParseTopUp(name: string, amount: string)
    requires ' ' !in name && ' ' !in amount
    requires name != [] && name[0] != '$' && amount != [] && amount[|amount| - 1] != '$'
    ensures ParseAdminCommand("$$" + name + " " + TOP_UP + " " + amount + "$$") == TopUp(name, amount)
  {
    InstructionArgs(name, TOP_UP, amount);
  }

  /** The arguments of "$$<a> <b> <c>$$" are a, b and c. */
  lemma InstructionArgs(a: string, b: string, c: string)
    requires ' ' !in a && ' ' !in b && ' ' !in c
    requires a != [] && a[0] != '$' && c != [] && c[|c| - 1] != '$'
    ensures Split(TrimMatches("$$" + a + " " + b + " " + c + "$$", '$'), ' ') == [a, b, c]
  {
    var body := a + " " + b + " " + c;
    assert "$$" + a + " " + b + " " + c + "$$" == "$$" + body + "$$";
    TrimMatchesWrapped("$$", body, "$$", '$');
    SplitThree(a, b, c);
  }

  lemma JoinThree(a: string, b: string, c: string)
    ensures Join([a, b, c], ' ') == a + " " + b + " " + c
  {
    assert [a, b, c][1..] == [b, c];
    assert [b, c][1..] == [c];
    assert Join([c], ' ') == c;
    assert Join([b, c], ' ') == b + " " + c;
  }

  lemma SplitThree(a: string, b: string, c: string)
    requires ' ' !in a && ' ' !in b && ' ' !in c
    ensures Split(a + " " + b + " " + c, ' ') == [a, b, c]
  {
    JoinThree(a, b, c);
    SplitJoin([a, b, c], ' ');
  }

  /** The guest listing of "查用户": name, balance and admin flag of each
      guest, with no separator between guests. */
  function GuestLine(g: Core.Guest, fmt: Format): string
  {
    g.name + " " + fmt.display(g.credit) + " " + BoolText(g.admin)
  }

  function Listing(gs: seq<Core.Guest>, fmt: Format): string
  {
    if gs == [] then "" else Listing(gs[..|gs| - 1], fmt) + GuestLine(gs[|gs| - 1], fmt)
  }

  lemma {:induction false} ListingAppend(a: seq<Core.Guest>, b: seq<Core.Guest>, fmt: Format)
    ensures Listing(a + b, fmt) == Listing(a, fmt) + Listing(b, fmt)
  {
    if b == [] {
      assert a + b == a;
    } else {
      assert (a + b)[..|a + b| - 1] == a + b[..|b| - 1];
      assert (a + b)[|a + b| - 1] == b[|b| - 1];
      ListingAppend(a, b[..|b| - 1], fmt);
    }
  }

  /** The `push_str` loop of "查用户". */
  method WriteListing(guests: seq<Core.Guest>, fmt: Format) returns (msg: string)
    ensures msg == Listing(guests, fmt)
  {
    msg := "";
    var i := 0;
    while i < |guests|
      invariant 0 <= i <= |guests|
      invariant msg == Listing(guests[..i], fmt)
    {
      assert guests[..i + 1][..i] == guests[..i];
      msg := msg + GuestLine(guests[i], fmt);
      i := i + 1;
    }
    assert guests[..i] == guests;
  }

  /** What an administrator's instruction answers, and the guest record it
      writes, if any. */
  datatype AdminEffect = AdminEffect(reply: string, update: Option<Core.Guest>)

  function AdminOutcome(guests: seq<Rows.GuestRow>, command: AdminCommand, fmt: Format,
                        parseReal: string -> Option<real>): AdminEffect
  {
    match command
    case ListGuests => AdminEffect(Listing(S.GuestsOf(guests), fmt), None)
    case TopUp(name, amount) =>
      (match parseReal(amount)
       case None => AdminEffect(CREDIT_PARSE_FAILED, None)
       case Some(v) =>
         (match S.GuestByName(guests, name)
          case None => AdminEffect(USER_MISSING + Acc.ErrorText(Acc.NotFound), None)
          case Some(u) =>
            AdminEffect(CREDIT_UPDATED + fmt.display(u.credit + v), Some(Core.Guest(name, u.credit + v, u.admin)))))
    case SetAdmin(name, flag) =>
      (match ParseBool(flag)
       case None => AdminEffect(ADMIN_PARSE_FAILED, None)
       case Some(b) =>
         (match S.GuestByName(guests, name)
          case None => AdminEffect(USER_MISSING + Acc.ErrorText(Acc.NotFound), None)
          case Some(u) =>
            AdminEffect(ADMIN_UPDATED + name + (if b then BECAME_ADMIN else NO_LONGER_ADMIN),
                        Some(Core.Guest(name, u.credit, b)))))
    case Unknown => AdminEffect(UNKNOWN_INSTRUCTION, None)
  }

  /** A top-up adds the amount to the stored balance and keeps the admin
      flag; it writes nothing when the amount does not parse or the guest
      does not exist. */
  lemma TopUpAddsCredit(guests: seq<Rows.GuestRow>, name: string, amount: string, fmt: Format,
                        parseReal: string -> Option<real>)
    ensures var e := AdminOutcome(guests, TopUp(name, amount), fmt, parseReal);
      && (e.update.Some? <==> parseReal(amount).Some? && S.GuestByName(guests, name).Some?)
      && (e.update.Some? ==>
            e.update.value == Core.Guest(name, S.GuestByName(guests, name).value.credit + parseReal(amount).value,
                                         S.GuestByName(guests, name).value.admin))
  {
  }

  /** Granting or revoking the admin right keeps the balance. */
  lemma SetAdminKeepsCredit(guests: seq<Rows.GuestRow>, name: string, flag: string, fmt: Format,
                            parseReal: string -> Option<real>)
    ensures var e := AdminOutcome(guests, SetAdmin(name, flag), fmt, parseReal);
      && (e.update.Some? <==> (flag == "true" || flag == "false") && S.GuestByName(guests, name).Some?)
      && (e.update.Some? ==>
            e.update.value == Core.Guest(name, S.GuestByName(guests, name).value.credit, flag == "true"))
  {
  }

  // ---------------------------------------------------------------------
  // Requests

  /** What handling a user request sends back: nothing, an instruction's
      answer, the balance refusal, or the assistant's reply together with
      the amount charged for it. */
  datatype Outcome = Ignored | Answered(text: string) | Refused(overdue: real) | Replied(content: string, cost: real)

  /** What the reception desk does with the assistant's answer: it sends
      the reply and charges its cost, and sends nothing when the chat
      failed. */
  function ChatOutcome(answer: Fallible<Result<A.Reply, A.Error>>): (o: Fallible<Outcome>)
    ensures o.Panics? <==> answer.Panics?
    ensures o.Returns? ==> o.value.Ignored? || o.value.Replied?
    ensures o == Returns(Ignored) <==> answer.Returns? && answer.value.Err?
    ensures answer.Returns? && answer.value.Ok? ==>
      o == Returns(Replied(answer.value.value.content, answer.value.value.cost))
  {
    match answer
    case Panics => Panics
    case Returns(Err(_)) => Returns(Ignored)
    case Returns(Ok(reply)) => Returns(Replied(reply.content, reply.cost))
  }

  /** An instruction's reply as the outcome of the request. */
  function Answering(reply: Fallible<string>): Fallible<Outcome>
  {
    match reply
    case Panics => Panics
    case Returns(text) => Returns(Answered(text))
  }

  /** The guest record a sender is served under once admitted: the stored
      one, or a new guest with no credit and no admin right. */
  function AdmittedGuest(guests: seq<Rows.GuestRow>, name: string): Core.Guest
  {
    if S.GuestByName(guests, name).Some? then S.ToGuest(S.GuestByName(guests, name).value)
    else Core.Guest(name, 0.0, false)
  }

  /** What a registered guest's "#…" command answers, from whether the
      application has an assistant and the guest's active conversation
      with it before the command. */
  ghost predicate UserReplied(hasAssistant: bool, pre: Result<seq<Rows.MessageRow>, S.Error>, guest: Core.Guest,
                              instruction: string, fmt: Format, o: Fallible<Outcome>)
  {
    && (!hasAssistant ==> o == Returns(Answered(NO_ASSISTANT)))
    && (hasAssistant ==>
          && (instruction == CHECK_BALANCE ==> o == Returns(Answered(BALANCE + fmt.fixed3(guest.credit))))
          && (instruction == CHECK_COST ==> o == Answering(AuditReply(A.AuditOf(true, pre), fmt)))
          && (instruction == NEW_CONVERSATION ==> o == Returns(Answered(NEW_CONVERSATION_STARTED)))
          && (instruction !in {CHECK_BALANCE, CHECK_COST, NEW_CONVERSATION} ==> o == Returns(Answered(UNSUPPORTED))))
  }

  /** What a registered guest's instruction answers: an administrator's
      "$…" instruction is answered from the guest table, everything else as
      a user command. */
  ghost predicate InstructionReplied(guests: seq<Rows.GuestRow>, hasAssistant: bool,
                                     pre: Result<seq<Rows.MessageRow>, S.Error>, guest: Core.Guest,
                                     instruction: string, fmt: Format, parseReal: string -> Option<real>,
                                     o: Fallible<Outcome>)
  {
    if guest.admin && StartsWith(instruction, "$")
    then o == Returns(Answered(AdminOutcome(guests, ParseAdminCommand(instruction), fmt, parseReal).reply))
    else UserReplied(hasAssistant, pre, guest, instruction, fmt, o)
  }

  /** What a guest's instruction does to the store's tables (primed names
      are the tables after it; `t` is the clock after it). No instruction
      touches a message. An administrator's "$…" instruction keeps the
      conversations and writes the one guest record `AdminOutcome` names,
      if any. A user command keeps the guests; with an assistant, "#新会话"
      leaves a known guest an empty active conversation, "#查消耗" keeps
      the conversations when the guest has an active one, and every other
      command keeps them too. */
  ghost predicate InstructionApplied(guests: seq<Rows.GuestRow>, guests': seq<Rows.GuestRow>,
                                     convs: seq<Rows.ConversationRow>, convs': seq<Rows.ConversationRow>,
                                     msgs: seq<Rows.MessageRow>, msgs': seq<Rows.MessageRow>, t: nat,
                                     hasAssistant: bool, guest: Core.Guest, assistantId: int,
                                     instruction: string, fmt: Format, parseReal: string -> Option<real>)
  {
    && msgs' == msgs
    && if guest.admin && StartsWith(instruction, "$") then
         var e := AdminOutcome(guests, ParseAdminCommand(instruction), fmt, parseReal);
         && convs' == convs
         && guests' == (if e.update.None? then guests
                        else S.SetGuest(guests, e.update.value.name, e.update.value.credit, e.update.value.admin, t))
       else
         var started := hasAssistant && instruction == NEW_CONVERSATION;
         var created := hasAssistant && instruction == CHECK_COST &&
                        S.ConversationOf(guests, convs, msgs, guest.name, assistantId).Err?;
         && guests' == guests
         && (started && S.GuestByName(guests, guest.name).Some? ==>
               S.ConversationOf(guests', convs', msgs', guest.name, assistantId) == Ok([]))
         && (!started && !created ==> convs' == convs)
  }

  /** The guest table once a sender is admitted: as it was for a known
      sender; for a new one, one more row with the next id, the name, no
      credit and no admin right. */
  ghost predicate Admission(before: seq<Rows.GuestRow>, admitted: seq<Rows.GuestRow>, name: string, id: int)
  {
    if S.GuestByName(before, name).Some? then admitted == before
    else
      && |admitted| == |before| + 1 && admitted[..|before|] == before
      && admitted[|before|].id == id && admitted[|before|].name == name
      && admitted[|before|].credit == 0.0 && !admitted[|before|].admin
  }

  /** The "#查消耗" answer: the assistant's bill in the reply's wording, or
      the assistant's panic. */
  function AuditReply(report: Fallible<A.AuditReport>, fmt: Format): Fallible<string>
  {
    match report
    case Panics => Panics
    case Returns(r) => Returns(fmt.audit(r))
  }

  class Agent {
    const assistants: map<nat, A.Assistant>
    const cryptoAgents: map<nat, CallbackCrypto>
    const messengers: map<nat, Messenger>
    const accountant: Acc.Accountant

    constructor (assistants: map<nat, A.Assistant>, cryptoAgents: map<nat, CallbackCrypto>,
                 messengers: map<nat, Messenger>, accountant: Acc.Accountant)
      ensures this.assistants == assistants && this.cryptoAgents == cryptoAgents
      ensures this.messengers == messengers && this.accountant == accountant
    {
      this.assistants := assistants;
      this.cryptoAgents := cryptoAgents;
      this.messengers := messengers;
      this.accountant := accountant;
    }

    /** All assistants share the accountant's store. */
    predicate Wired()
    {
      forall k :: k in assistants ==> assistants[k].storage == accountant.storage
    }

    /** The id of the application's assistant, 0 when it has none. */
    function AssistantIdOf(agentId: nat): nat
    {
      if agentId in assistants then assistants[agentId].id else 0
    }

    /** `verify_url`: the contact-directory application is checked by the
        accountant; any other application by its own crypto agent. */
    function VerifyUrl(agentId: nat, params: UrlVerifyParams): (r: Result<string, nat>)
      ensures agentId == accountant.agentId ==>
        (r.Ok? <==> accountant.VerifyUrl(params).Ok?) &&
        (r.Ok? ==> r.value == accountant.VerifyUrl(params).value) &&
        (r.Err? ==> r.error == BAD_REQUEST)
      ensures agentId != accountant.agentId && agentId !in cryptoAgents ==> r == Err(INTERNAL_SERVER_ERROR)
      ensures agentId != accountant.agentId && agentId in cryptoAgents ==>
        var crypto := cryptoAgents[agentId];
        if !Acc.Signed(crypto, [params.timestamp, params.nonce, params.echostr], params.msgSignature)
        then r == Err(BAD_REQUEST)
        else if crypto.decrypt(params.echostr).Err? then r == Err(INTERNAL_SERVER_ERROR)
        else r == Ok(crypto.decrypt(params.echostr).value.text)
    {
      if agentId == accountant.agentId then
        match accountant.VerifyUrl(params)
        case Err(_) => Err(BAD_REQUEST)
        case Ok(text) => Ok(text)
      else if agentId !in cryptoAgents then Err(INTERNAL_SERVER_ERROR)
      else
        var crypto := cryptoAgents[agentId];
        if crypto.generateSignature([params.timestamp, params.nonce, params.echostr]) != params.msgSignature
        then Err(BAD_REQUEST)
        else
          match crypto.decrypt(params.echostr)
          case Err(_) => Err(INTERNAL_SERVER_ERROR)
          case Ok(d) => Ok(d.text)
    }

    /** The first part of `handle_user_request`: parse the body, find the
        application's crypto agent, check the signature, decrypt and parse
        the message. Any failure ends the request. */
    function Incoming(agentId: nat, xml: Xml, params: CallbackParams, body: string)
      : (r: Option<AppMessageContent>)
      ensures r.Some? ==>
        && xml.body(body).Ok? && agentId in cryptoAgents
        && var encrypted := xml.body(body).value.encryptedStr;
           && Acc.Signed(cryptoAgents[agentId], [params.timestamp, params.nonce, encrypted], params.msgSignature)
           && cryptoAgents[agentId].decrypt(encrypted).Ok?
           && xml.appMessage(cryptoAgents[agentId].decrypt(encrypted).value.text) == Ok(r.value)
      ensures xml.body(body).Err? || agentId !in cryptoAgents ==> r.None?
      ensures xml.body(body).Ok? && agentId in cryptoAgents ==>
        var encrypted := xml.body(body).value.encryptedStr;
        !Acc.Signed(cryptoAgents[agentId], [params.timestamp, params.nonce, encrypted], params.msgSignature) ==>
          r.None?
    {
      match xml.body(body)
      case Err(_) => None
      case Ok(b) =>
        if agentId !in cryptoAgents then None
        else
          var crypto := cryptoAgents[agentId];
          if crypto.generateSignature([params.timestamp, params.nonce, b.encryptedStr]) != params.msgSignature
          then None
          else
            match crypto.decrypt(b.encryptedStr)
            case Err(_) => None
            case Ok(d) =>
              match xml.appMessage(d.text)
              case Err(_) => None
              case Ok(m) => Some(m)
    }

    /** Account checks of `handle_user_request`: an unknown sender is
        registered with no credit and no admin right; the overdue amount is
        the balance when it is zero or less, else 0. Neither the
        registration nor the following lookup can fail here, because the
        sender is registered only when absent. */
    method Admit(name: string) returns (guest: Core.Guest, overdue: real)
      requires accountant.storage.Valid()
      modifies accountant.storage
      ensures accountant.storage.Valid()
      ensures accountant.storage.conversations == old(accountant.storage.conversations)
      ensures accountant.storage.messages == old(accountant.storage.messages)
      ensures S.GuestByName(old(accountant.storage.guests), name).Some? ==> unchanged(accountant.storage)
      ensures S.GuestByName(old(accountant.storage.guests), name).None? ==>
        accountant.storage.guests == old(accountant.storage.guests) +
          [Rows.GuestRow(old(accountant.storage.nextGuestId), name, 0.0, accountant.storage.clock,
                         accountant.storage.clock, false)]
      ensures S.GuestByName(accountant.storage.guests, name).Some?
      ensures guest == S.ToGuest(S.GuestByName(accountant.storage.guests, name).value)
      ensures guest == if S.GuestByName(old(accountant.storage.guests), name).Some?
                       then S.ToGuest(S.GuestByName(old(accountant.storage.guests), name).value)
                       else Core.Guest(name, 0.0, false)
      ensures overdue == (if S.GuestByName(old(accountant.storage.guests), name).Some? &&
                             S.GuestByName(old(accountant.storage.guests), name).value.credit <= 0.0
                          then S.GuestByName(old(accountant.storage.guests), name).value.credit else 0.0)
    {
      var standing := accountant.VerifyGuest(name);
      overdue := 0.0;
      match standing {
        case Ok(_) =>
        case Err(e) =>
          if e.Overdue? {
            overdue := e.credit;
          } else {
            var registered := accountant.Register(Core.Guest(name, 0.0, false));
            assert registered.Ok?;
            LastGuestFound(old(accountant.storage.guests), accountant.storage.guests, name);
          }
      }
      var found := accountant.GetGuest(name);
      guest := found.value;
    }

    /** The part of `handle_user_request` after the account checks, for a
        message that is not an instruction: refuse an overdrawn guest, ask
        the assistant, and on success charge the guest the reply's cost. */
    method Converse(agentId: nat, guest: Core.Guest, overdue: real, text: string,
                    process: P.Conversation -> Result<P.Response, string>)
      returns (o: Fallible<Outcome>)
      requires accountant.storage.Valid() && Wired()
      modifies accountant.storage
      ensures accountant.storage.Valid()
      ensures overdue < 0.0 ==> o == Returns(Refused(overdue)) && unchanged(accountant.storage)
      ensures overdue >= 0.0 && agentId !in assistants ==> o == Returns(Ignored) && unchanged(accountant.storage)
      ensures overdue >= 0.0 && agentId in assistants ==>
        var assistant := assistants[agentId];
        o == ChatOutcome(assistant.Answer(S.GuestByName(old(accountant.storage.guests), guest.name).Some?,
                                          A.History(old(accountant.storage.GetConversation(guest, assistant.id))),
                                          text, process))
      ensures o.Returns? && o.value.Replied? ==>
        Charged(old(accountant.storage.guests), accountant.storage.guests, guest, o.value.cost, accountant.storage.clock)
      ensures !(o.Returns? && o.value.Replied?) ==> accountant.storage.guests == old(accountant.storage.guests)
      ensures o == Returns(Ignored) ==> accountant.storage.messages == old(accountant.storage.messages)
      ensures o.Returns? && o.value.Replied? ==>
        Recorded(old(accountant.storage.messages), accountant.storage.messages, text, o.value.content, o.value.cost)
    {
      if overdue < 0.0 {
        return Returns(Refused(overdue));
      }
      if agentId !in assistants {
        return Returns(Ignored);
      }
      var answer := Ask(assistants[agentId], guest, text, process);
      if answer.Panics? {
        return Panics;
      }
      if answer.value.Err? {
        return Returns(Ignored);
      }
      var reply := answer.value.value;
      Charge(guest, reply.cost);
      o := Returns(Replied(reply.content, reply.cost));
    }

    /** Debit the guest's balance by the reply's cost, as one write of the
        guest's record. */
    method Charge(guest: Core.Guest, cost: real)
      requires accountant.storage.Valid()
      modifies accountant.storage
      ensures accountant.storage.Valid()
      ensures accountant.storage.messages == old(accountant.storage.messages)
      ensures Charged(old(accountant.storage.guests), accountant.storage.guests, guest, cost, accountant.storage.clock)
    {
      var charged := guest.(credit := guest.credit - cost);
      var updated := accountant.UpdateGuest(charged);
    }

    /** The assistant's chat seen from the reception desk: the answer is
        the assistant's, the guest table is not touched, a failed chat
        stores nothing, and a successful one stores the guest's message and
        the reply. */
    method Ask(assistant: A.Assistant, guest: Core.Guest, text: string,
               process: P.Conversation -> Result<P.Response, string>)
      returns (r: Fallible<Result<A.Reply, A.Error>>)
      requires assistant.storage == accountant.storage && accountant.storage.Valid()
      modifies accountant.storage
      ensures accountant.storage.Valid()
      ensures accountant.storage.guests == old(accountant.storage.guests)
      ensures r == assistant.Answer(S.GuestByName(old(accountant.storage.guests), guest.name).Some?,
                                    A.History(old(accountant.storage.GetConversation(guest, assistant.id))),
                                    text, process)
      ensures r.Returns? && r.value.Err? ==> accountant.storage.messages == old(accountant.storage.messages)
      ensures r.Returns? && r.value.Ok? ==>
        Recorded(old(accountant.storage.messages), accountant.storage.messages, text,
                 r.value.value.content, r.value.value.cost)
    {
      r := assistant.Chat(guest, text, process);
    }

    /** `handle_instruction_msg` for an administrator's "$…" instruction. */
    method AdminInstruction(instruction: string, fmt: Format, parseReal: string -> Option<real>)
      returns (reply: string)
      requires accountant.storage.Valid()
      modifies accountant.storage
      ensures accountant.storage.Valid()
      ensures accountant.storage.conversations == old(accountant.storage.conversations)
      ensures accountant.storage.messages == old(accountant.storage.messages)
      ensures var e := AdminOutcome(old(accountant.storage.guests), ParseAdminCommand(instruction), fmt, parseReal);
        && reply == e.reply
        && (e.update.None? ==> unchanged(accountant.storage))
        && (e.update.Some? ==>
              accountant.storage.guests ==
                S.SetGuest(old(accountant.storage.guests), e.update.value.name, e.update.value.credit,
                           e.update.value.admin, accountant.storage.clock))
    {
      var command := ParseAdminCommand(instruction);
      var storage := accountant.storage;
      match command {
        case ListGuests =>
          var guests := storage.GetUsers();
          match guests {
            case Err(_) =>
              reply := GUESTS_UNAVAILABLE;
            case Ok(gs) =>
              assert gs == S.GuestsOf(storage.guests);
              reply := WriteListing(gs, fmt);
          }
        case TopUp(name, amount) =>
          reply := TopUpGuest(name, amount, fmt, parseReal);
        case SetAdmin(name, flag) =>
          reply := SetGuestAdmin(name, flag, fmt, parseReal);
        case Unknown =>
          reply := UNKNOWN_INSTRUCTION;
      }
    }

    /** The "<name> 充值 <amount>" instruction. */
    method TopUpGuest(name: string, amount: string, fmt: Format, parseReal: string -> Option<real>)
      returns (reply: string)
      requires accountant.storage.Valid()
      modifies accountant.storage
      ensures accountant.storage.Valid()
      ensures accountant.storage.conversations == old(accountant.storage.conversations)
      ensures accountant.storage.messages == old(accountant.storage.messages)
      ensures var e := AdminOutcome(old(accountant.storage.guests), TopUp(name, amount), fmt, parseReal);
        && reply == e.reply
        && (e.update.None? ==> unchanged(accountant.storage))
        && (e.update.Some? ==>
              accountant.storage.guests ==
                S.SetGuest(old(accountant.storage.guests), e.update.value.name, e.update.value.credit,
                           e.update.value.admin, accountant.storage.clock))
    {
      var v := parseReal(amount);
      if v.None? {
        return CREDIT_PARSE_FAILED;
      }
      var user := accountant.GetGuest(name);
      if user.Err? {
        return USER_MISSING + Acc.ErrorText(user.error);
      }
      var next := user.value.(credit := user.value.credit + v.value);
      var updated := accountant.UpdateGuest(next);
      reply := match updated
        case Err(e) => CREDIT_UPDATE_FAILED + Acc.ErrorText(e)
        case Ok(_) => CREDIT_UPDATED + fmt.display(next.credit);
    }

    /** The "<name> 管理员 <flag>" instruction. */
    method SetGuestAdmin(name: string, flag: string, fmt: Format, parseReal: string -> Option<real>)
      returns (reply: string)
      requires accountant.storage.Valid()
      modifies accountant.storage
      ensures accountant.storage.Valid()
      ensures accountant.storage.conversations == old(accountant.storage.conversations)
      ensures accountant.storage.messages == old(accountant.storage.messages)
      ensures var e := AdminOutcome(old(accountant.storage.guests), SetAdmin(name, flag), fmt, parseReal);
        && reply == e.reply
        && (e.update.None? ==> unchanged(accountant.storage))
        && (e.update.Some? ==>
              accountant.storage.guests ==
                S.SetGuest(old(accountant.storage.guests), e.update.value.name, e.update.value.credit,
                           e.update.value.admin, accountant.storage.clock))
    {
      var b := ParseBool(flag);
      if b.None? {
        return ADMIN_PARSE_FAILED;
      }
      var user := accountant.GetGuest(name);
      if user.Err? {
        return USER_MISSING + Acc.ErrorText(user.error);
      }
      var next := user.value.(admin := b.value);
      var updated := accountant.UpdateGuest(next);
      reply := match updated
        case Err(e) => ADMIN_UPDATE_FAILED + Acc.ErrorText(e)
        case Ok(_) => ADMIN_UPDATED + next.name + (if next.admin then BECAME_ADMIN else NO_LONGER_ADMIN);
    }

    /** `handle_instruction_msg` for everything else: the "#…" commands of
        a regular user, answered through the application's assistant. */
    method UserInstruction(guest: Core.Guest, assistantId: nat, instruction: string, fmt: Format)
      returns (reply: Fallible<string>)
      requires accountant.storage.Valid() && Wired()
      modifies accountant.storage
      ensures accountant.storage.Valid()
      ensures accountant.storage.guests == old(accountant.storage.guests)
      ensures assistantId !in assistants ==> reply == Returns(NO_ASSISTANT) && unchanged(accountant.storage)
      ensures assistantId in assistants ==>
        && (instruction == CHECK_BALANCE ==>
              reply == Returns(BALANCE + fmt.fixed3(guest.credit)) && unchanged(accountant.storage))
        && (instruction == NEW_CONVERSATION ==>
              && accountant.storage.messages == old(accountant.storage.messages)
              && (S.GuestByName(old(accountant.storage.guests), guest.name).Some? ==>
                    reply == Returns(NEW_CONVERSATION_STARTED) &&
                    accountant.storage.GetConversation(guest, assistants[assistantId].id) == Ok([]))
              && (S.GuestByName(old(accountant.storage.guests), guest.name).None? ==>
                    reply.Returns? && StartsWith(reply.value, "为" + guest.name + NEW_CONVERSATION_FAILED)))
        && (instruction == CHECK_COST ==>
              && accountant.storage.messages == old(accountant.storage.messages)
              && reply == AuditReply(A.AuditOf(S.GuestByName(old(accountant.storage.guests), guest.name).Some?,
                                               old(accountant.storage.GetConversation(guest, assistants[assistantId].id))),
                                     fmt)
              && (old(accountant.storage.GetConversation(guest, assistants[assistantId].id)).Ok? ==>
                    accountant.storage.conversations == old(accountant.storage.conversations)))
        && (instruction !in {CHECK_BALANCE, CHECK_COST, NEW_CONVERSATION} ==>
              reply == Returns(UNSUPPORTED) && unchanged(accountant.storage))
    {
      if assistantId !in assistants {
        return Returns(NO_ASSISTANT);
      }
      var assistant := assistants[assistantId];
      if instruction == CHECK_BALANCE {
        reply := Returns(BALANCE + fmt.fixed3(guest.credit));
      } else if instruction == CHECK_COST {
        var report := assistant.Audit(guest);
        if report.Panics? {
          return Panics;
        }
        reply := Returns(fmt.audit(report.value));
      } else if instruction == NEW_CONVERSATION {
        var created := assistant.NewConversation(guest);
        reply := match created
          case Err(e) => Returns("为" + guest.name + NEW_CONVERSATION_FAILED + S.ErrorText(e))
          case Ok(_) => Returns(NEW_CONVERSATION_STARTED);
      } else {
        reply := Returns(UNSUPPORTED);
      }
    }

    /** `handle_instruction_msg`: an administrator's instruction starts with
        '$'; everything else, including a non-administrator's "$$…$$", is
        read as a user command. */
    method HandleInstruction(guest: Core.Guest, assistantId: nat, instruction: string, fmt: Format,
                             parseReal: string -> Option<real>)
      returns (reply: Fallible<string>)
      requires accountant.storage.Valid() && Wired()
      modifies accountant.storage
      ensures accountant.storage.Valid()
      ensures InstructionApplied(old(accountant.storage.guests), accountant.storage.guests,
                                 old(accountant.storage.conversations), accountant.storage.conversations,
                                 old(accountant.storage.messages), accountant.storage.messages,
                                 accountant.storage.clock, assistantId in assistants, guest,
                                 AsI32(AssistantIdOf(assistantId)), instruction, fmt, parseReal)
      ensures guest.admin && StartsWith(instruction, "$") ==>
        reply == Returns(AdminOutcome(old(accountant.storage.guests), ParseAdminCommand(instruction), fmt, parseReal).reply)
      ensures !(guest.admin && StartsWith(instruction, "$")) ==>
        accountant.storage.guests == old(accountant.storage.guests)
      ensures S.GuestByName(old(accountant.storage.guests), guest.name).Some? ==>
        InstructionReplied(old(accountant.storage.guests), assistantId in assistants,
                           old(accountant.storage.GetConversation(guest, AssistantIdOf(assistantId))),
                           guest, instruction, fmt, parseReal, Answering(reply))
    {
      if guest.admin && StartsWith(instruction, "$") {
        var text := AdminInstruction(instruction, fmt, parseReal);
        reply := Returns(text);
      } else {
        reply := UserInstruction(guest, assistantId, instruction, fmt);
      }
    }

    /** `handle_user_request`. Instructions are answered before, and
        regardless of, the balance check; chat is refused only for a
        negative balance, so a guest at exactly zero is still served. */
    method HandleUserRequest(agentId: nat, xml: Xml, params: CallbackParams, body: string, fmt: Format,
                             parseReal: string -> Option<real>,
                             process: P.Conversation -> Result<P.Response, string>)
      returns (o: Fallible<Outcome>, ghost admitted: seq<Rows.GuestRow>)
      requires accountant.storage.Valid() && Wired()
      modifies accountant.storage
      ensures accountant.storage.Valid()
      ensures Incoming(agentId, xml, params, body).None? ==> o == Returns(Ignored) && unchanged(accountant.storage)
      ensures Incoming(agentId, xml, params, body).Some? ==>
        var msg := Incoming(agentId, xml, params, body).value;
        && Admission(old(accountant.storage.guests), admitted, msg.fromUserName, old(accountant.storage.nextGuestId))
        && (IsCommand(msg.content) ==>
              InstructionApplied(admitted, accountant.storage.guests,
                                 old(accountant.storage.conversations), accountant.storage.conversations,
                                 old(accountant.storage.messages), accountant.storage.messages,
                                 accountant.storage.clock, agentId in assistants,
                                 AdmittedGuest(old(accountant.storage.guests), msg.fromUserName),
                                 AsI32(AssistantIdOf(agentId)), msg.content, fmt, parseReal))
      ensures Incoming(agentId, xml, params, body).Some? ==>
        Served(old(accountant.storage.guests), accountant.storage.guests, Incoming(agentId, xml, params, body).value, o)
      ensures Incoming(agentId, xml, params, body).Some? ==>
        var msg := Incoming(agentId, xml, params, body).value;
        var guest := AdmittedGuest(old(accountant.storage.guests), msg.fromUserName);
        var pre := old(accountant.storage.GetConversation(guest, AssistantIdOf(agentId)));
        && (IsCommand(msg.content) ==>
              InstructionReplied(old(accountant.storage.guests), agentId in assistants, pre, guest, msg.content,
                                 fmt, parseReal, o))
        && (!IsCommand(msg.content) && guest.credit >= 0.0 && agentId in assistants ==>
              o == ChatOutcome(assistants[agentId].Answer(true, A.History(pre), msg.content, process)))
        && (o.Returns? && o.value.Replied? ==>
              Recorded(old(accountant.storage.messages), accountant.storage.messages, msg.content,
                       o.value.content, o.value.cost))
    {
      var incoming := Incoming(agentId, xml, params, body);
      if incoming.None? {
        return Returns(Ignored), accountant.storage.guests;
      }
      var msg := incoming.value;
      ghost var before := accountant.storage.guests;
      ghost var pre := accountant.storage.GetConversation(AdmittedGuest(before, msg.fromUserName), AssistantIdOf(agentId));
      var guest, overdue := Admit(msg.fromUserName);
      admitted := accountant.storage.guests;
      SameConversationAfterAdmit(before, admitted, accountant.storage.conversations, accountant.storage.messages,
                                 msg.fromUserName, AsI32(AssistantIdOf(agentId)), old(accountant.storage.nextGuestId));
      assert accountant.storage.GetConversation(guest, AssistantIdOf(agentId)) == pre;
      if IsCommand(msg.content) {
        var answer := HandleInstruction(guest, agentId, msg.content, fmt, parseReal);
        o := Answering(answer);
      } else {
        o := Converse(agentId, guest, overdue, msg.content, process);
        ServedChat(before, admitted, accountant.storage.guests, msg, guest, overdue, accountant.storage.clock, o);
      }
    }
  }

  /** What handling a decrypted message does to the guest table and what
      it answers. A new sender is appended with no admin right. An
      instruction is answered whatever the balance. Otherwise the
      sender is refused exactly when the stored balance is negative,
      charged the reply's cost when the assistant answers, and left as
      they were when nothing is sent. */
  ghost predicate Served(before: seq<Rows.GuestRow>, after: seq<Rows.GuestRow>, msg: AppMessageContent,
                         o: Fallible<Outcome>)
  {
    var name := msg.fromUserName;
    var known := S.GuestByName(before, name);
    var credit := if known.Some? then known.value.credit else 0.0;
    && (known.None? ==>
          |after| == |before| + 1 && after[..|before|] == before &&
          after[|before|].name == name && !after[|before|].admin)
    && (IsCommand(msg.content) ==> o.Returns? ==> o.value.Answered?)
    && (!IsCommand(msg.content) ==>
          && S.GuestByName(after, name).Some?
          && (o.Returns? && o.value.Refused? <==> known.Some? && known.value.credit < 0.0)
          && (o.Returns? && o.value.Refused? ==> o.value.overdue == credit)
          && (o.Returns? && o.value.Replied? ==> S.GuestByName(after, name).value.credit == credit - o.value.cost)
          && (o == Returns(Ignored) ==> S.GuestByName(after, name).value.credit == credit))
  }

  /** The guest table after a chat message: the admission, then either
      no write or one charge of the reply's cost, gives what `Served`
      promises. */
  lemma ServedChat(before: seq<Rows.GuestRow>, admitted: seq<Rows.GuestRow>, after: seq<Rows.GuestRow>,
                   msg: AppMessageContent, guest: Core.Guest, overdue: real, t: nat, o: Fallible<Outcome>)
    requires !IsCommand(msg.content)
    requires S.GuestByName(admitted, msg.fromUserName).Some?
    requires S.GuestByName(before, msg.fromUserName).Some? ==> admitted == before
    requires S.GuestByName(before, msg.fromUserName).None? ==>
      |admitted| == |before| + 1 && admitted[..|before|] == before &&
      admitted[|before|].name == msg.fromUserName && admitted[|before|].credit == 0.0 &&
      !admitted[|before|].admin
    requires guest == AdmittedGuest(before, msg.fromUserName)
    requires overdue == (if S.GuestByName(before, msg.fromUserName).Some? &&
                            S.GuestByName(before, msg.fromUserName).value.credit <= 0.0
                         then S.GuestByName(before, msg.fromUserName).value.credit else 0.0)
    requires overdue < 0.0 ==> o == Returns(Refused(overdue))
    requires o.Returns? && o.value.Refused? ==> overdue < 0.0
    requires o.Returns? && o.value.Replied? ==> Charged(admitted, after, guest, o.value.cost, t)
    requires !(o.Returns? && o.value.Replied?) ==> after == admitted
    ensures Served(before, after, msg, o)
  {
    if S.GuestByName(before, msg.fromUserName).None? {
      LastGuestFound(before, admitted, msg.fromUserName);
    }
    if o.Returns? && o.value.Replied? {
      ChargedGuest(before, admitted, guest, o.value.cost, t);
    }
  }

  /** Charging a guest writes their record once, with the balance lowered
      by the cost. */
  ghost predicate Charged(before: seq<Rows.GuestRow>, after: seq<Rows.GuestRow>, guest: Core.Guest, cost: real, t: nat)
  {
    after == S.SetGuest(before, guest.name, guest.credit - cost, guest.admin, t)
  }

  /** The exchange a successful chat leaves in the message table: the
      guest's message with no cost, then the reply with its cost, both
      after the rows already there. */
  ghost predicate Recorded(before: seq<Rows.MessageRow>, after: seq<Rows.MessageRow>, text: string,
                           content: string, cost: real)
  {
    var k := |before|;
    && |after| == k + 2 && after[..k] == before
    && S.Stores(after[k], P.Message(P.RoleName(P.User), text), 0.0, 0, 0)
    && after[k + 1].content == content && after[k + 1].cost == cost
  }

  /** Charging the sender rewrites only the sender's row. */
  lemma ChargedGuest(before: seq<Rows.GuestRow>, admitted: seq<Rows.GuestRow>, guest: Core.Guest, cost: real, t: nat)
    requires S.GuestByName(admitted, guest.name).Some?
    requires S.GuestByName(before, guest.name).None? ==>
      |admitted| == |before| + 1 && admitted[..|before|] == before && admitted[|before|].name == guest.name
    ensures var after := S.SetGuest(admitted, guest.name, guest.credit - cost, guest.admin, t);
      && S.GuestByName(after, guest.name).Some?
      && S.GuestByName(after, guest.name).value.credit == guest.credit - cost
      && (S.GuestByName(before, guest.name).None? ==>
            after[..|before|] == before && after[|before|].name == guest.name &&
            after[|before|].admin == guest.admin)
  {
    var charged := guest.(credit := guest.credit - cost);
    SetGuestCredit(admitted, S.SetGuest(admitted, guest.name, guest.credit - cost, guest.admin, t), charged, t);
  }

  /** Admitting a sender does not change which conversation the sender's
      name leads to: a known sender's row stays as it was, and a new
      sender's row carries a fresh id that no conversation refers to. */
  lemma SameConversationAfterAdmit(before: seq<Rows.GuestRow>, after: seq<Rows.GuestRow>,
                                   cs: seq<Rows.ConversationRow>, ms: seq<Rows.MessageRow>,
                                   name: string, assistantId: int, next: int)
    requires S.GuestByName(before, name).Some? ==> after == before
    requires S.GuestByName(before, name).None? ==>
      |after| == |before| + 1 && after[..|before|] == before &&
      after[|before|].name == name && after[|before|].id == next
    requires forall i :: 0 <= i < |cs| ==> cs[i].guestId < next
    ensures S.ConversationOf(after, cs, ms, name, assistantId) == S.ConversationOf(before, cs, ms, name, assistantId)
  {
    if S.GuestByName(before, name).None? {
      LastGuestFound(before, after, name);
      var active := S.ActiveConversation(cs, next, assistantId);
      if active.Some? {
        Rows.FirstIn(cs, (c: Rows.ConversationRow) => S.IsActiveFor(c, next, assistantId));
        assert false;
      }
    }
  }

  /** After appending a row for a name that was absent, the lookup finds
      that row. */
  lemma LastGuestFound(before: seq<Rows.GuestRow>, after: seq<Rows.GuestRow>, name: string)
    requires S.GuestByName(before, name).None?
    requires |after| == |before| + 1 && after[..|before|] == before && after[|before|].name == name
    ensures S.GuestByName(after, name) == Some(after[|before|])
  {
    Rows.FirstOnlyLast(after, (g: Rows.GuestRow) => g.name == name);
  }

  /** Writing a guest's record and reading it back gives the written credit. */
  lemma SetGuestCredit(before: seq<Rows.GuestRow>, after: seq<Rows.GuestRow>, g: Core.Guest, t: nat)
    requires S.GuestByName(before, g.name).Some?
    requires after == S.SetGuest(before, g.name, g.credit, g.admin, t)
    ensures S.GuestByName(after, g.name).Some?
    ensures S.GuestByName(after, g.name).value.credit == g.credit
  {
    S.GuestByNameIn(before, g.name);
    S.GuestByNameIn(after, g.name);
  }

  // ---------------------------------------------------------------------
  // Construction

  /** `Agent::new`: read the administrator's name, open the store, then
      build one crypto agent and one messenger per configured assistant and
      one assistant per matching provider, and finally the accountant. Every
      named environment variable must be set. The store is passed in
      already migrated; opening it seeds the administrator. */
  method NewAgent(config: Config, env: string -> Option<string>, storage: S.StorageAgent,
                  newCrypto: (string, string) -> CallbackCrypto)
    returns (r: Result<Agent, string>)
    requires storage.Valid()
    modifies storage
    ensures storage.Valid()
    ensures env(config.adminAccount).None? ==>
      r == Err(ENV_MISSING + config.adminAccount) && unchanged(storage)
    ensures env(config.adminAccount).Some? && !storage.initialized ==> r.Err?
    ensures env(config.adminAccount).Some? && storage.initialized ==>
      (r.Err? <==> FirstMissing(SetupVars(config), env).Some?) &&
      (r.Err? ==> r.error == ENV_MISSING + FirstMissing(SetupVars(config), env).value)
    ensures r.Ok? ==>
      var agent := r.value;
      && storage.initialized
      && agent.Wired() && agent.accountant.storage == storage
      && agent.cryptoAgents == CryptoAgentsOf(config.assistants, env, newCrypto)
      && agent.messengers == MessengersOf(config, config.assistants, env)
      && SetupsOf(agent.assistants) == AssistantsOf(config, config.assistants, env)
      && agent.accountant.agentId == config.accountant.agentId
      && agent.accountant.crypto ==
           newCrypto(Lookup(env, config.accountant.token), Lookup(env, config.accountant.key))
  {
    var admin := Fetch(env, config.adminAccount);
    if admin.Err? {
      return Err(admin.error);
    }
    var openResult := storage.Open(admin.value);
    if openResult.Err? {
      return Err(STORAGE_INIT_FAILED + S.ErrorText(openResult.error));
    }
    var built := BuildApplications(config, env, storage, newCrypto, [config.accountant.token, config.accountant.key]);
    if built.Err? {
      return Err(built.error);
    }
    var (assistants, cryptoAgents, messengers) := built.value;
    ghost var read := LoopVars(config, config.assistants);
    var token := Fetch(env, config.accountant.token);
    if token.Err? {
      FirstMissingAt(read, [config.accountant.token, config.accountant.key], env);
      return Err(token.error);
    }
    FirstMissingExtend(read, config.accountant.token, env);
    var key := Fetch(env, config.accountant.key);
    if key.Err? {
      FirstMissingAt(read + [config.accountant.token], [config.accountant.key], env);
      assert read + [config.accountant.token] + [config.accountant.key] == SetupVars(config);
      return Err(key.error);
    }
    FirstMissingExtend(read + [config.accountant.token], config.accountant.key, env);
    assert read + [config.accountant.token] + [config.accountant.key] == SetupVars(config);
    var accountant := new Acc.Accountant(storage, config.accountant.(token := token.value, key := key.value), newCrypto);
    var agent := new Agent(assistants, cryptoAgents, messengers, accountant);
    r := Ok(agent);
  }

  /** The assistant loop of `Agent::new`. On failure the error names the
      first unset variable among those the loop reads and those read
      after it (`later`). */
  method BuildApplications(config: Config, env: string -> Option<string>, storage: S.StorageAgent,
                           newCrypto: (string, string) -> CallbackCrypto, ghost later: seq<string>)
    returns (r: Result<(map<nat, A.Assistant>, map<nat, CallbackCrypto>, map<nat, Messenger>), string>)
    ensures r.Err? <==> FirstMissing(LoopVars(config, config.assistants), env).Some?
    ensures r.Err? ==>
      var all := LoopVars(config, config.assistants) + later;
      FirstMissing(all, env).Some? && r.error == ENV_MISSING + FirstMissing(all, env).value
    ensures r.Ok? ==>
      var (assistants, cryptoAgents, messengers) := r.value;
      && (forall k :: k in assistants ==> assistants[k].storage == storage)
      && cryptoAgents == CryptoAgentsOf(config.assistants, env, newCrypto)
      && messengers == MessengersOf(config, config.assistants, env)
      && SetupsOf(assistants) == AssistantsOf(config, config.assistants, env)
  {
    var cfgs := config.assistants;
    var assistants: map<nat, A.Assistant> := map[];
    var cryptoAgents: map<nat, CallbackCrypto> := map[];
    var messengers: map<nat, Messenger> := map[];
    ghost var read: seq<string> := [];
    var i := 0;
    while i < |cfgs|
      invariant 0 <= i <= |cfgs|
      invariant read == LoopVars(config, cfgs[..i]) && FirstMissing(read, env).None?
      invariant forall k :: k in assistants ==> assistants[k].storage == storage
      invariant cryptoAgents == CryptoAgentsOf(cfgs[..i], env, newCrypto)
      invariant messengers == MessengersOf(config, cfgs[..i], env)
      invariant SetupsOf(assistants) == AssistantsOf(config, cfgs[..i], env)
    {
      var a := cfgs[i];
      ghost var tail := LoopVars(config, cfgs[i + 1..]) + later;
      LoopVarsStep(config, cfgs, i);
      var step := AddApplication(config, a, env, storage, newCrypto, assistants, cryptoAgents, messengers, read, tail);
      if step.Err? {
        LoopMissing(config, cfgs, i, read, later, env);
        return Err(step.error);
      }
      assistants, cryptoAgents, messengers := step.value.0, step.value.1, step.value.2;
      FirstMissingAppend(read, AssistantVars(config, a), env);
      read := read + AssistantVars(config, a);
      PrefixStep(config, cfgs, i, env, newCrypto);
      i := i + 1;
    }
    assert cfgs[..i] == cfgs;
    r := Ok((assistants, cryptoAgents, messengers));
  }

  /** One iteration of the assistant loop: the crypto agent, the
      messenger, and the assistants of the matching providers. */
  method AddApplication(config: Config, a: AssistantCfg, env: string -> Option<string>, storage: S.StorageAgent,
                        newCrypto: (string, string) -> CallbackCrypto, assistants: map<nat, A.Assistant>,
                        cryptoAgents: map<nat, CallbackCrypto>, messengers: map<nat, Messenger>,
                        ghost read: seq<string>, ghost tail: seq<string>)
    returns (r: Result<(map<nat, A.Assistant>, map<nat, CallbackCrypto>, map<nat, Messenger>), string>)
    requires FirstMissing(read, env).None?
    requires forall k :: k in assistants ==> assistants[k].storage == storage
    ensures r.Ok? <==> FirstMissing(AssistantVars(config, a), env).None?
    ensures r.Err? ==>
      var all := read + AssistantVars(config, a) + tail;
      FirstMissing(all, env).Some? && r.error == ENV_MISSING + FirstMissing(all, env).value
    ensures r.Ok? ==>
      var (assistants', cryptoAgents', messengers') := r.value;
      && (forall k :: k in assistants' ==> assistants'[k].storage == storage)
      && cryptoAgents' == cryptoAgents[a.agentId := newCrypto(Lookup(env, a.token), Lookup(env, a.key))]
      && messengers' == messengers[a.agentId := Messenger(Lookup(env, config.wecom.corpId), Lookup(env, a.secret))]
      && SetupsOf(assistants') == WithProviders(SetupsOf(assistants), a, config.providers, env)
  {
    var r1 := ReadAssistant(config, a, env, read, tail);
    if r1.Err? {
      return Err(r1.error);
    }
    var (token, key, corpId, secret) := r1.value;
    ghost var names := [a.token, a.key, config.wecom.corpId, a.secret];
    AssistantReads(config, a, read, tail, env);
    var r2 := AddProviders(config, a, env, storage, assistants, read + names, tail);
    if r2.Err? {
      return Err(r2.error);
    }
    r := Ok((r2.value, cryptoAgents[a.agentId := newCrypto(token, key)], messengers[a.agentId := Messenger(corpId, secret)]));
  }

  /** Once the four opening reads of an assistant succeed, what is missing
      among its variables is what is missing among its provider variables. */
  lemma AssistantReads(config: Config, a: AssistantCfg, read: seq<string>, tail: seq<string>,
                       env: string -> Option<string>)
    requires FirstMissing(read, env).None?
    requires FirstMissing([a.token, a.key, config.wecom.corpId, a.secret], env).None?
    ensures FirstMissing(read + [a.token, a.key, config.wecom.corpId, a.secret], env).None?
    ensures FirstMissing(AssistantVars(config, a), env)
         == FirstMissing(ProviderVars(config.providers, a.providerId), env)
    ensures read + [a.token, a.key, config.wecom.corpId, a.secret] + ProviderVars(config.providers, a.providerId) + tail
         == read + AssistantVars(config, a) + tail
  {
    var names := [a.token, a.key, config.wecom.corpId, a.secret];
    FirstMissingAppend(read, names, env);
    FirstMissingAppend(names, ProviderVars(config.providers, a.providerId), env);
  }

  /** How the variables of the assistant loop split around assistant i. */
  lemma LoopVarsStep(config: Config, cfgs: seq<AssistantCfg>, i: nat)
    requires i < |cfgs|
    ensures LoopVars(config, cfgs[..i + 1]) == LoopVars(config, cfgs[..i]) + AssistantVars(config, cfgs[i])
    ensures LoopVars(config, cfgs)
         == LoopVars(config, cfgs[..i]) + AssistantVars(config, cfgs[i]) + LoopVars(config, cfgs[i + 1..])
  {
    LoopVarsAppend(config, cfgs[..i], [cfgs[i]]);
    LoopVarsAppend(config, cfgs[..i + 1], cfgs[i + 1..]);
    assert cfgs[..i + 1] == cfgs[..i] + [cfgs[i]] && cfgs == cfgs[..i + 1] + cfgs[i + 1..];
    assert LoopVars(config, [cfgs[i]]) == AssistantVars(config, cfgs[i]) + LoopVars(config, []);
  }

  /** The three maps built for the first i + 1 assistants, from those built
      for the first i. */
  lemma PrefixStep(config: Config, cfgs: seq<AssistantCfg>, i: nat, env: string -> Option<string>,
                   newCrypto: (string, string) -> CallbackCrypto)
    requires i < |cfgs|
    ensures CryptoAgentsOf(cfgs[..i + 1], env, newCrypto)
         == CryptoAgentsOf(cfgs[..i], env, newCrypto)[cfgs[i].agentId :=
              newCrypto(Lookup(env, cfgs[i].token), Lookup(env, cfgs[i].key))]
    ensures MessengersOf(config, cfgs[..i + 1], env)
         == MessengersOf(config, cfgs[..i], env)[cfgs[i].agentId :=
              Messenger(Lookup(env, config.wecom.corpId), Lookup(env, cfgs[i].secret))]
    ensures AssistantsOf(config, cfgs[..i + 1], env)
         == WithProviders(AssistantsOf(config, cfgs[..i], env), cfgs[i], config.providers, env)
  {
    assert cfgs[..i + 1][..i] == cfgs[..i];
  }

  /** An unset variable of assistant i is reported as the first unset one
      of the whole list, once the earlier assistants' were all set. */
  lemma LoopMissing(config: Config, cfgs: seq<AssistantCfg>, i: nat, read: seq<string>, later: seq<string>,
                    env: string -> Option<string>)
    requires i < |cfgs|
    requires read == LoopVars(config, cfgs[..i])
    requires FirstMissing(AssistantVars(config, cfgs[i]), env).Some?
    ensures FirstMissing(LoopVars(config, cfgs), env).Some?
    ensures read + AssistantVars(config, cfgs[i]) + (LoopVars(config, cfgs[i + 1..]) + later)
         == LoopVars(config, cfgs) + later
  {
    LoopVarsStep(config, cfgs, i);
    MissingWithin(read, AssistantVars(config, cfgs[i]), LoopVars(config, cfgs[i + 1..]), env);
  }

  /** A missing name in the middle makes the whole list miss one. */
  lemma MissingWithin(a: seq<string>, b: seq<string>, c: seq<string>, env: string -> Option<string>)
    requires FirstMissing(b, env).Some?
    ensures FirstMissing(a + b + c, env).Some?
  {
    var k :| 0 <= k < |b| && env(b[k]).None?;
    assert (a + b + c)[|a| + k] == b[k];
  }

  /** The four reads that open each iteration: the token and key, the
      corporation id and the secret. */
  method ReadAssistant(config: Config, a: AssistantCfg, env: string -> Option<string>,
                       ghost read: seq<string>, ghost later: seq<string>)
    returns (r: Result<(string, string, string, string), string>)
    requires FirstMissing(read, env).None?
    ensures r.Ok? <==> FirstMissing([a.token, a.key, config.wecom.corpId, a.secret], env).None?
    ensures r.Ok? ==> r.value == (Lookup(env, a.token), Lookup(env, a.key), Lookup(env, config.wecom.corpId),
                                  Lookup(env, a.secret))
    ensures r.Err? ==> FirstMissing(AssistantVars(config, a), env).Some?
    ensures r.Err? ==>
      var all := read + AssistantVars(config, a) + later;
      FirstMissing(all, env).Some? && r.error == ENV_MISSING + FirstMissing(all, env).value
  {
    FirstMissingAppend([a.token, a.key, config.wecom.corpId, a.secret], ProviderVars(config.providers, a.providerId), env);
    var names := [a.token, a.key, config.wecom.corpId, a.secret];
    var rest := ProviderVars(config.providers, a.providerId) + later;
    assert read + AssistantVars(config, a) + later == read + (names + rest);
    FirstMissingAppend(read, names + rest, env);
    FirstMissingAppend(names, rest, env);
    assert names == [a.token] + ([a.key] + ([config.wecom.corpId] + [a.secret]));
    FirstMissingCons(a.token, [a.key] + ([config.wecom.corpId] + [a.secret]), env);
    FirstMissingCons(a.key, [config.wecom.corpId] + [a.secret], env);
    FirstMissingCons(config.wecom.corpId, [a.secret], env);
    FirstMissingCons(a.secret, [], env);
    var token := Fetch(env, a.token);
    if token.Err? { return Err(token.error); }
    var key := Fetch(env, a.key);
    if key.Err? { return Err(key.error); }
    var corpId := Fetch(env, config.wecom.corpId);
    if corpId.Err? { return Err(corpId.error); }
    var secret := Fetch(env, a.secret);
    if secret.Err? { return Err(secret.error); }
    r := Ok((token.value, key.value, corpId.value, secret.value));
  }

  /** The provider loop: build an assistant for every provider with the
      configured id; the last one is kept. */
  method AddProviders(config: Config, a: AssistantCfg, env: string -> Option<string>, storage: S.StorageAgent,
                      assistants0: map<nat, A.Assistant>, ghost read: seq<string>, ghost later: seq<string>)
    returns (r: Result<map<nat, A.Assistant>, string>)
    requires FirstMissing(read, env).None?
    requires forall k :: k in assistants0 ==> assistants0[k].storage == storage
    ensures r.Ok? <==> FirstMissing(ProviderVars(config.providers, a.providerId), env).None?
    ensures r.Ok? ==>
      && (forall k :: k in r.value ==> r.value[k].storage == storage)
      && SetupsOf(r.value) == WithProviders(SetupsOf(assistants0), a, config.providers, env)
    ensures r.Err? ==>
      var all := read + ProviderVars(config.providers, a.providerId) + later;
      FirstMissing(all, env).Some? && r.error == ENV_MISSING + FirstMissing(all, env).value
  {
    var ps := config.providers;
    var assistants: map<nat, A.Assistant> := assistants0;
    ghost var done: seq<string> := read;
    var j := 0;
    while j < |ps|
      invariant 0 <= j <= |ps|
      invariant done == read + ProviderVarsUpTo(ps, j, a.providerId) && FirstMissing(done, env).None?
      invariant forall k :: k in assistants ==> assistants[k].storage == storage
      invariant SetupsOf(assistants) == WithProviders(SetupsOf(assistants0), a, ps[..j], env)
    {
      var p := ps[j];
      ProviderVarsSplit(ps, j, a.providerId);
      WithProvidersStep(SetupsOf(assistants0), a, ps, j, env);
      if p.id == a.providerId {
        ghost var rest := ProviderVarsFrom(ps, j + 1, a.providerId) + later;
        ProviderReadsAt(ps, j, a.providerId, read, done, later);
        var resolved := ResolveProvider(p, env, done, rest);
        if resolved.Err? {
          ProviderMissing(ps, j, a.providerId, env);
          return Err(resolved.error);
        }
        var assistant := new A.Assistant(a.agentId, a.prompt, a.reservation, resolved.value, storage);
        SetupsInsert(assistants, a.agentId, assistant);
        assistants := assistants[a.agentId := assistant];
        done := done + [p.endpoint, p.apiKey];
      }
      j := j + 1;
    }
    assert ps[..j] == ps;
    FirstMissingAppend(read, ProviderVars(ps, a.providerId), env);
    r := Ok(assistants);
  }

  /** The two reads for a matching provider: its endpoint, then its key. */
  method ResolveProvider(p: P.Config, env: string -> Option<string>, ghost done: seq<string>, ghost rest: seq<string>)
    returns (r: Result<P.Config, string>)
    requires FirstMissing(done, env).None?
    ensures r.Ok? <==> env(p.endpoint).Some? && env(p.apiKey).Some?
    ensures r.Ok? ==> r.value == Resolved(p, env) && FirstMissing(done + [p.endpoint, p.apiKey], env).None?
    ensures r.Err? ==>
      var all := done + [p.endpoint, p.apiKey] + rest;
      FirstMissing(all, env).Some? && r.error == ENV_MISSING + FirstMissing(all, env).value
  {
    FirstMissingAppend(done, [p.endpoint, p.apiKey] + rest, env);
    FirstMissingAppend(done, [p.endpoint, p.apiKey], env);
    assert done + [p.endpoint, p.apiKey] + rest == done + ([p.endpoint] + ([p.apiKey] + rest));
    assert [p.endpoint, p.apiKey] + rest == [p.endpoint] + ([p.apiKey] + rest);
    assert [p.endpoint, p.apiKey] == [p.endpoint] + [p.apiKey];
    FirstMissingCons(p.endpoint, [p.apiKey] + rest, env);
    FirstMissingCons(p.apiKey, rest, env);
    FirstMissingCons(p.endpoint, [p.apiKey], env);
    FirstMissingCons(p.apiKey, [], env);
    var endpoint := Fetch(env, p.endpoint);
    if endpoint.Err? {
      return Err(endpoint.error);
    }
    var apiKey := Fetch(env, p.apiKey);
    if apiKey.Err? {
      return Err(apiKey.error);
    }
    r := Ok(p.(endpoint := endpoint.value, apiKey := apiKey.value));
  }

  /** The provider variables read for the first j providers. */
  function ProviderVarsUpTo(ps: seq<P.Config>, j: nat, providerId: nat): seq<string>
    requires j <= |ps|
  {
    ProviderVars(ps[..j], providerId)
  }

  /** The provider variables read from provider j on. */
  function ProviderVarsFrom(ps: seq<P.Config>, j: nat, providerId: nat): seq<string>
    requires j <= |ps|
  {
    ProviderVars(ps[j..], providerId)
  }

  lemma {:induction false} ProviderVarsAppend(a: seq<P.Config>, b: seq<P.Config>, providerId: nat)
    ensures ProviderVars(a + b, providerId) == ProviderVars(a, providerId) + ProviderVars(b, providerId)
  {
    if a == [] {
      assert a + b == b;
    } else {
      assert (a + b)[0] == a[0] && (a + b)[1..] == a[1..] + b;
      ProviderVarsAppend(a[1..], b, providerId);
    }
  }

  lemma ProviderVarsSplit(ps: seq<P.Config>, j: nat, providerId: nat)
    requires j < |ps|
    ensures ProviderVarsUpTo(ps, j + 1, providerId) ==
      ProviderVarsUpTo(ps, j, providerId) + (if ps[j].id == providerId then [ps[j].endpoint, ps[j].apiKey] else [])
    ensures ProviderVars(ps, providerId) ==
      ProviderVarsUpTo(ps, j, providerId)
      + (if ps[j].id == providerId then [ps[j].endpoint, ps[j].apiKey] else [])
      + ProviderVarsFrom(ps, j + 1, providerId)
  {
    assert ps[..j + 1] == ps[..j] + [ps[j]];
    ProviderVarsAppend(ps[..j], [ps[j]], providerId);
    assert ps == ps[..j + 1] + ps[j + 1..];
    ProviderVarsAppend(ps[..j + 1], ps[j + 1..], providerId);
  }

  /** The assistants built from the first j + 1 providers, from those built
      from the first j. */
  lemma WithProvidersStep(m: map<nat, AssistantSetup>, a: AssistantCfg, ps: seq<P.Config>, j: nat,
                          env: string -> Option<string>)
    requires j < |ps|
    ensures WithProviders(m, a, ps[..j + 1], env)
         == if ps[j].id == a.providerId
            then WithProviders(m, a, ps[..j], env)[a.agentId :=
                   AssistantSetup(a.agentId, a.prompt, a.reservation, Resolved(ps[j], env))]
            else WithProviders(m, a, ps[..j], env)
  {
    assert ps[..j + 1][..j] == ps[..j];
  }

  /** The reads of the provider loop split around matching provider j. */
  lemma ProviderReadsAt(ps: seq<P.Config>, j: nat, providerId: nat, read: seq<string>, done: seq<string>,
                        later: seq<string>)
    requires j < |ps| && ps[j].id == providerId
    requires done == read + ProviderVarsUpTo(ps, j, providerId)
    ensures read + ProviderVars(ps, providerId) + later
         == done + [ps[j].endpoint, ps[j].apiKey] + (ProviderVarsFrom(ps, j + 1, providerId) + later)
  {
    ProviderVarsSplit(ps, j, providerId);
  }

  /** An unset endpoint or key of matching provider j leaves some provider
      variable unset. */
  lemma ProviderMissing(ps: seq<P.Config>, j: nat, providerId: nat, env: string -> Option<string>)
    requires j < |ps| && ps[j].id == providerId
    requires env(ps[j].endpoint).None? || env(ps[j].apiKey).None?
    ensures FirstMissing(ProviderVars(ps, providerId), env).Some?
  {
    ProviderVarsSplit(ps, j, providerId);
    var k := |ProviderVarsUpTo(ps, j, providerId)| + (if env(ps[j].endpoint).None? then 0 else 1);
    SomeMissing(ProviderVars(ps, providerId), k, env);
  }

  lemma SetupsInsert(m: map<nat, A.Assistant>, k: nat, a: A.Assistant)
    ensures SetupsOf(m[k := a]) == SetupsOf(m)[k := Setup(a)]
  {
  }
}
