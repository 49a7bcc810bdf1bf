/** The invite-code bot: a ledger of applications and of the codes given out for them. */
module InviteBot {
  import opened Text

  /** Telegram ids are positive, so a used code is one whose `usedBy` is set. */
  type UserId = x: int | x > 0 witness 1

  datatype Code = Code(code: string, usedBy: Option<UserId>)

  datatype Status = Pending | Approved | Rejected

  datatype Application = Application(id: int, user: UserId, essay: string, status: Status)

  /** A code sent to the applicant it was granted to. */
  datatype Grant = Grant(user: UserId, code: string)

  datatype Ledger = Ledger(inventory: seq<Code>, applications: seq<Application>, suSessions: set<int>, grants: seq<Grant>)

  const EMPTY := Ledger([], [], {}, [])

  datatype Reply =
    | Silence | Welcome | YourId | NotAdmin
    | Added(count: nat, available: nat) | EnteredSu | LeftSu(available: nat) | NoNewCodes
    | AlreadyApplied(status: Status) | Submitted
    | NoSuchApplication | AlreadyProcessed(status: Status) | OutOfStock | ApprovedWith(code: string) | RejectedNow

  datatype Message = Message(chat: int, user: UserId, text: string, now: int)

  /** A pressed button; a number that does not parse names nothing. */
  datatype Callback = Callback(from: UserId, action: string, user: Option<int>, app: Option<int>)

  datatype Event = Said(message: Message) | Pressed(callback: Callback)

  // ---- Texts ----

  /** White space as JavaScript's `trim` and `\\s` take it. */
  predicate JsSpace(c: char) {
    (IsSpace(c) && c as int != 0x85) || c as int == 0xFEFF
  }

  function JsTrim(s: string): string {
    if s != "" && JsSpace(s[0]) then JsTrim(s[1..])
    else if s != "" && JsSpace(s[|s| - 1]) then JsTrim(s[..|s| - 1])
    else s
  }

  /** The length in UTF-16 code units. */
  function JsLength(s: string): nat {
    if s == "" then 0 else (if s[0] as int >= 0x10000 then 2 else 1) + JsLength(s[1..])
  }

  const CODE_MIN_LEN: nat := 4

  function LongEnough(words: seq<string>): seq<string> {
    if words == [] then []
    else LongEnough(words[..|words| - 1]) + if JsLength(words[|words| - 1]) >= CODE_MIN_LEN then [words[|words| - 1]] else []
  }

  function Trimmed(words: seq<string>): seq<string> {
    if words == [] then [] else [JsTrim(words[0])] + Trimmed(words[1..])
  }

  /** The words between white space, commas and semicolons; empty ones are too short to matter. */
  function InlineWords(s: string): (words: seq<string>)
    ensures words != []
  {
    if s == "" then [""]
    else
      var rest := InlineWords(s[1..]);
      if JsSpace(s[0]) || s[0] in {',', ';'} then [""] + rest else [[s[0]] + rest[0]] + rest[1..]
  }

  /** The codes after `/su` on the same message. */
  function InlineCodes(rest: string): seq<string> {
    LongEnough(InlineWords(rest))
  }

  /** The codes of a message in the adding mode, one on each line. */
  function LineCodes(text: string): seq<string> {
    LongEnough(Trimmed(Split(text, '\n')))
  }

  predicate IsLeave(text: string) {
    AsciiLower(text) == "/done" || AsciiLower(text) == "/cancel"
  }

  // ---- The two handlers ----

  predicate HasCode(inventory: seq<Code>, code: string) {
    exists i :: 0 <= i < |inventory| && inventory[i].code == code
  }

  function AddCodes(inventory: seq<Code>, codes: seq<string>): (r: seq<Code>)
    ensures |r| >= |inventory|
  {
    if codes == [] then inventory
    else
      var before := AddCodes(inventory, codes[..|codes| - 1]);
      var c := codes[|codes| - 1];
      if HasCode(before, c) then before else before + [Code(c, None)]
  }

  function Available(inventory: seq<Code>): nat {
    if inventory == [] then 0
    else Available(inventory[..|inventory| - 1]) + if inventory[|inventory| - 1].usedBy.None? then 1 else 0
  }

  /** The position of the first code that is not used. */
  function FirstUnused(inventory: seq<Code>): (i: nat)
    ensures i <= |inventory|
    ensures i < |inventory| ==> inventory[i].usedBy.None?
    ensures forall j :: 0 <= j < i ==> inventory[j].usedBy.Some?
  {
    if inventory == [] || inventory[0].usedBy.None? then 0 else 1 + FirstUnused(inventory[1..])
  }

  /** The position of the user's application; with an id given, of the one with that id. */
  function FindApplication(applications: seq<Application>, user: int, id: Option<int>): (i: nat)
    ensures i <= |applications|
    ensures i < |applications| ==> applications[i].user == user && (id.Some? ==> applications[i].id == id.value)
    ensures forall j :: 0 <= j < i ==> applications[j].user != user || (id.Some? && applications[j].id != id.value)
  {
    if applications == [] || (applications[0].user == user && (id.Some? ==> applications[0].id == id.value)) then 0
    else 1 + FindApplication(applications[1..], user, id)
  }

  function Restock(l: Ledger, codes: seq<string>, none: Reply): (Ledger, Reply) {
    var inventory := AddCodes(l.inventory, codes);
    var count := |inventory| - |l.inventory|;
    (l.(inventory := inventory), if count == 0 && none.NoNewCodes? then none else Added(count, Available(inventory)))
  }

  /** The codes on the same message as `/su`, if there is anything after it. */
  function SuCodes(text: string): Option<seq<string>>
    requires |text| >= 3
  {
    var rest := JsTrim(text[3..]);
    if rest == "" then None else Some(InlineCodes(rest))
  }

  function Apply(l: Ledger, m: Message, essay: string): (Ledger, Reply) {
    var i := FindApplication(l.applications, m.user, None);
    if i < |l.applications| then (l, AlreadyApplied(l.applications[i].status))
    else (l.(applications := l.applications + [Application(m.now, m.user, essay, Pending)]), Submitted)
  }

  function Leave(l: Ledger, admin: UserId, m: Message): (Ledger, Reply) {
    if m.user == admin && m.chat in l.suSessions then (l.(suSessions := l.suSessions - {m.chat}), LeftSu(Available(l.inventory)))
    else (l, Silence)
  }

  function OnText(l: Ledger, admin: UserId, m: Message, text: string): (Ledger, Reply) {
    if "/start" <= text then (l, Welcome)
    else if "/id" <= text then (l, YourId)
    else if "/su" <= text then
      if m.user != admin then (l, NotAdmin)
      else
        match SuCodes(text)
        case Some(codes) => Restock(l, codes, Silence)
        case None => (l.(suSessions := l.suSessions + {m.chat}), EnteredSu)
    else if IsLeave(text) then Leave(l, admin, m)
    else if m.chat in l.suSessions && m.user == admin then Restock(l, LineCodes(text), NoNewCodes)
    else Apply(l, m, text)
  }

  function OnMessage(l: Ledger, admin: UserId, m: Message): (Ledger, Reply) {
    OnText(l, admin, m, JsTrim(m.text))
  }

  function OnCallback(l: Ledger, admin: UserId, c: Callback): (Ledger, Reply) {
    if c.from != admin then (l, NotAdmin)
    else if c.user.None? || c.app.None? then (l, NoSuchApplication)
    else
      var i := FindApplication(l.applications, c.user.value, c.app);
      if i == |l.applications| then (l, NoSuchApplication)
      else if !l.applications[i].status.Pending? then (l, AlreadyProcessed(l.applications[i].status))
      else if c.action == "approve" then
        var k := FirstUnused(l.inventory);
        if k == |l.inventory| then (l, OutOfStock) else (Approve(l, i, k), ApprovedWith(l.inventory[k].code))
      else if c.action == "reject" then
        (l.(applications := l.applications[i := l.applications[i].(status := Rejected)]), RejectedNow)
      else (l, Silence)
  }

  function Approve(l: Ledger, i: nat, k: nat): Ledger
    requires i < |l.applications| && k < |l.inventory|
  {
    var user := l.applications[i].user;
    l.(inventory := l.inventory[k := l.inventory[k].(usedBy := Some(user))],
       applications := l.applications[i := l.applications[i].(status := Approved)],
       grants := l.grants + [Grant(user, l.inventory[k].code)])
  }

  function Step(l: Ledger, admin: UserId, e: Event): Ledger {
    match e
    case Said(m) => OnMessage(l, admin, m).0
    case Pressed(c) => OnCallback(l, admin, c).0
  }

  function After(l: Ledger, admin: UserId, events: seq<Event>): Ledger {
    if events == [] then l else Step(After(l, admin, events[..|events| - 1]), admin, events[|events| - 1])
  }

  // ---- What every run keeps ----

  ghost predicate CodesUnique(inventory: seq<Code>) {
    forall i, j :: 0 <= i < j < |inventory| ==> inventory[i].code != inventory[j].code
  }

  /** The first codes of the inventory are used, one for each grant and in the order of the grants; the others are not. */
  ghost predicate UsedPrefix(inventory: seq<Code>, grants: seq<Grant>) {
    && |grants| <= |inventory|
    && (forall i :: 0 <= i < |grants| ==> inventory[i] == Code(grants[i].code, Some(grants[i].user)))
    && (forall i :: |grants| <= i < |inventory| ==> inventory[i].usedBy.None?)
  }

  ghost predicate OnePerUser(applications: seq<Application>) {
    forall i, j :: 0 <= i < j < |applications| ==> applications[i].user != applications[j].user
  }

  predicate Granted(grants: seq<Grant>, user: UserId) {
    exists k :: 0 <= k < |grants| && grants[k].user == user
  }

  /** Exactly the approved applicants hold a grant, and none holds two. */
  ghost predicate GrantsMatch(applications: seq<Application>, grants: seq<Grant>) {
    && (forall i :: 0 <= i < |applications| ==> (applications[i].status.Approved? <==> Granted(grants, applications[i].user)))
    && (forall k :: 0 <= k < |grants| ==> exists i :: 0 <= i < |applications| && applications[i].user == grants[k].user)
    && (forall k, m :: 0 <= k < m < |grants| ==> grants[k].user != grants[m].user)
  }

  ghost predicate Sound(l: Ledger) {
    CodesUnique(l.inventory) && UsedPrefix(l.inventory, l.grants) && OnePerUser(l.applications) && GrantsMatch(l.applications, l.grants)
  }

  lemma {:induction false} AddCodesKeeps(inventory: seq<Code>, codes: seq<string>, grants: seq<Grant>)
    requires CodesUnique(inventory) && UsedPrefix(inventory, grants)
    ensures CodesUnique(AddCodes(inventory, codes)) && UsedPrefix(AddCodes(inventory, codes), grants)
    ensures inventory <= AddCodes(inventory, codes)
  {
    if codes != [] {
      AddCodesKeeps(inventory, codes[..|codes| - 1], grants);
    }
  }

  lemma ApproveKeeps(l: Ledger, i: nat)
    requires Sound(l) && i < |l.applications| && l.applications[i].status.Pending? && FirstUnused(l.inventory) < |l.inventory|
    ensures FirstUnused(l.inventory) == |l.grants|
    ensures Sound(Approve(l, i, FirstUnused(l.inventory)))
  {
    var k := FirstUnused(l.inventory);
    assert |l.grants| < |l.inventory| ==> l.inventory[|l.grants|].usedBy.None?;
    ApproveMatches(l.applications, l.grants, i, l.inventory[k].code);
    assert forall a :: 0 <= a < |l.applications| ==> Approve(l, i, k).applications[a].user == l.applications[a].user;
    assert Approve(l, i, k).grants[k] == Grant(l.applications[i].user, l.inventory[k].code);
  }

  lemma ApproveMatches(applications: seq<Application>, grants: seq<Grant>, i: nat, code: string)
    requires OnePerUser(applications) && GrantsMatch(applications, grants)
    requires i < |applications| && applications[i].status.Pending?
    ensures GrantsMatch(applications[i := applications[i].(status := Approved)], grants + [Grant(applications[i].user, code)])
  {
    var applications' := applications[i := applications[i].(status := Approved)];
    var grants' := grants + [Grant(applications[i].user, code)];
    assert !Granted(grants, applications[i].user);
    assert grants'[|grants|].user == applications[i].user && forall k :: 0 <= k < |grants| ==> grants'[k] == grants[k];
    forall a | 0 <= a < |applications'|
      ensures applications'[a].status.Approved? <==> Granted(grants', applications'[a].user)
    {
      GrantedSnoc(grants, grants'[|grants|], applications'[a].user);
    }
    forall g | 0 <= g < |grants'|
      ensures exists a :: 0 <= a < |applications'| && applications'[a].user == grants'[g].user
    {
      if g < |grants| {
        var a :| 0 <= a < |applications| && applications[a].user == grants[g].user;
        assert applications'[a].user == grants'[g].user;
      } else {
        assert applications'[i].user == grants'[g].user;
      }
    }
  }

  lemma GrantedSnoc(grants: seq<Grant>, g: Grant, user: UserId)
    ensures Granted(grants + [g], user) <==> Granted(grants, user) || g.user == user
  {
    assert (grants + [g])[|grants|] == g;
    assert forall k :: 0 <= k < |grants| ==> (grants + [g])[k] == grants[k];
  }

  lemma RestockKeeps(l: Ledger, codes: seq<string>, none: Reply)
    requires Sound(l)
    ensures Sound(Restock(l, codes, none).0)
  {
    AddCodesKeeps(l.inventory, codes, l.grants);
  }

  /** A command that changes no more than who is adding codes. */
  predicate Idle(l: Ledger, l': Ledger) {
    l' == l.(suSessions := l'.suSessions)
  }

  ghost predicate Restocked(l: Ledger, l': Ledger) {
    exists codes, none :: l' == Restock(l, codes, none).0
  }

  predicate Applied(l: Ledger, m: Message, essay: string, l': Ledger) {
    && FindApplication(l.applications, m.user, None) == |l.applications|
    && l' == l.(applications := l.applications + [Application(m.now, m.user, essay, Pending)])
  }

  lemma TextOutcome(l: Ledger, admin: UserId, m: Message, text: string)
    ensures var l' := OnText(l, admin, m, text).0;
            Idle(l, l') || Restocked(l, l') || Applied(l, m, text, l')
  {
  }

  lemma TextKeeps(l: Ledger, m: Message, essay: string, l': Ledger)
    requires Sound(l) && (Idle(l, l') || Restocked(l, l') || Applied(l, m, essay, l'))
    ensures Sound(l')
  {
    if Restocked(l, l') {
      var codes, none :| l' == Restock(l, codes, none).0;
      RestockKeeps(l, codes, none);
    } else if Applied(l, m, essay, l') {
      NewApplicationKeeps(l, m.now, m.user, essay);
    }
  }

  lemma NewApplicationKeeps(l: Ledger, id: int, user: UserId, essay: string)
    requires Sound(l) && FindApplication(l.applications, user, None) == |l.applications|
    ensures Sound(l.(applications := l.applications + [Application(id, user, essay, Pending)]))
  {
    var l' := l.(applications := l.applications + [Application(id, user, essay, Pending)]);
    assert forall i :: 0 <= i < |l.applications| ==> l'.applications[i] == l.applications[i];
    forall k | 0 <= k < |l.grants|
      ensures l.grants[k].user != user
      ensures exists i :: 0 <= i < |l'.applications| && l'.applications[i].user == l.grants[k].user
    {
      var i :| 0 <= i < |l.applications| && l.applications[i].user == l.grants[k].user;
      assert l'.applications[i] == l.applications[i];
    }
  }

  lemma CallbackKeeps(l: Ledger, admin: UserId, c: Callback)
    requires Sound(l)
    ensures Sound(OnCallback(l, admin, c).0)
  {
    if c.from == admin && c.user.Some? && c.app.Some? {
      var i := FindApplication(l.applications, c.user.value, c.app);
      if i < |l.applications| && l.applications[i].status.Pending? {
        if c.action == "approve" {
          if FirstUnused(l.inventory) < |l.inventory| {
            ApproveKeeps(l, i);
          }
        } else if c.action == "reject" {
          RejectKeeps(l, i);
        }
      }
    }
  }

  lemma RejectKeeps(l: Ledger, i: nat)
    requires Sound(l) && i < |l.applications| && l.applications[i].status.Pending?
    ensures Sound(l.(applications := l.applications[i := l.applications[i].(status := Rejected)]))
  {
    var l' := l.(applications := l.applications[i := l.applications[i].(status := Rejected)]);
    assert forall a :: 0 <= a < |l.applications| ==> l'.applications[a].user == l.applications[a].user;
    forall k | 0 <= k < |l.grants|
      ensures exists a :: 0 <= a < |l'.applications| && l'.applications[a].user == l.grants[k].user
    {
      var a :| 0 <= a < |l.applications| && l.applications[a].user == l.grants[k].user;
      assert l'.applications[a].user == l.applications[a].user;
    }
  }

  /** In every state reachable from an empty ledger. */
  lemma {:induction false} EveryStateSound(admin: UserId, events: seq<Event>)
    ensures Sound(After(EMPTY, admin, events))
  {
    if events != [] {
      var l := After(EMPTY, admin, events[..|events| - 1]);
      EveryStateSound(admin, events[..|events| - 1]);
      match events[|events| - 1]
      case Said(m) =>
        TextOutcome(l, admin, m, JsTrim(m.text));
        TextKeeps(l, m, JsTrim(m.text), OnText(l, admin, m, JsTrim(m.text)).0);
      case Pressed(c) => CallbackKeeps(l, admin, c);
    }
  }

  /** What a ledger was is not taken back: grants, codes, their users, and every decision stay. */
  ghost predicate Extends(l: Ledger, l': Ledger) {
    && l.grants <= l'.grants
    && |l.inventory| <= |l'.inventory| && |l.applications| <= |l'.applications|
    && (forall i :: 0 <= i < |l.inventory| ==> CodeKept(l.inventory[i], l'.inventory[i]))
    && (forall i :: 0 <= i < |l.applications| ==> ApplicationKept(l.applications[i], l'.applications[i]))
  }

  predicate CodeKept(c: Code, c': Code) {
    c'.code == c.code && (c.usedBy.Some? ==> c' == c)
  }

  predicate ApplicationKept(a: Application, a': Application) {
    a'.(status := a.status) == a && (!a.status.Pending? ==> a' == a)
  }

  lemma StepExtends(l: Ledger, admin: UserId, e: Event)
    requires Sound(l)
    ensures Extends(l, Step(l, admin, e))
  {
    match e
    case Said(m) =>
      TextOutcome(l, admin, m, JsTrim(m.text));
      TextExtends(l, m, JsTrim(m.text), OnText(l, admin, m, JsTrim(m.text)).0);
    case Pressed(c) =>
      CallbackOutcome(l, admin, c);
      CallbackExtends(l, OnCallback(l, admin, c).0);
  }

  lemma RestockExtends(l: Ledger, codes: seq<string>, none: Reply)
    requires Sound(l)
    ensures Extends(l, Restock(l, codes, none).0)
  {
    AddCodesKeeps(l.inventory, codes, l.grants);
  }

  lemma TextExtends(l: Ledger, m: Message, essay: string, l': Ledger)
    requires Sound(l) && (Idle(l, l') || Restocked(l, l') || Applied(l, m, essay, l'))
    ensures Extends(l, l')
  {
    if Restocked(l, l') {
      var codes, none :| l' == Restock(l, codes, none).0;
      RestockExtends(l, codes, none);
    }
  }

  lemma ApproveExtends(l: Ledger, i: nat)
    requires i < |l.applications| && l.applications[i].status.Pending? && FirstUnused(l.inventory) < |l.inventory|
    ensures Extends(l, Approve(l, i, FirstUnused(l.inventory)))
  {
  }

  lemma RejectExtends(l: Ledger, i: nat)
    requires i < |l.applications| && l.applications[i].status.Pending?
    ensures Extends(l, l.(applications := l.applications[i := l.applications[i].(status := Rejected)]))
  {
  }

  predicate CanDecide(l: Ledger, i: nat) {
    i < |l.applications| && l.applications[i].status.Pending?
  }

  ghost predicate ByApproval(l: Ledger, l': Ledger) {
    FirstUnused(l.inventory) < |l.inventory| && exists i: nat :: CanDecide(l, i) && l' == Approve(l, i, FirstUnused(l.inventory))
  }

  ghost predicate ByRejection(l: Ledger, l': Ledger) {
    exists i: nat :: CanDecide(l, i) && l' == l.(applications := l.applications[i := l.applications[i].(status := Rejected)])
  }

  lemma CallbackOutcome(l: Ledger, admin: UserId, c: Callback)
    ensures var l' := OnCallback(l, admin, c).0;
            l' == l || ByApproval(l, l') || ByRejection(l, l')
  {
    if c.from == admin && c.user.Some? && c.app.Some? {
      var i := FindApplication(l.applications, c.user.value, c.app);
      assert i < |l.applications| && l.applications[i].status.Pending? ==> CanDecide(l, i);
    }
  }

  lemma CallbackExtends(l: Ledger, l': Ledger)
    requires l' == l || ByApproval(l, l') || ByRejection(l, l')
    ensures Extends(l, l')
  {
    if ByApproval(l, l') {
      var i: nat :| CanDecide(l, i) && l' == Approve(l, i, FirstUnused(l.inventory));
      ApproveExtends(l, i);
    } else if ByRejection(l, l') {
      var i: nat :| CanDecide(l, i) && l' == l.(applications := l.applications[i := l.applications[i].(status := Rejected)]);
      RejectExtends(l, i);
    }
  }

  /** An approved or rejected status and the user of a code never change again. */
  lemma {:induction false} DecisionsAreFinal(admin: UserId, events: seq<Event>, k: nat)
    requires k <= |events|
    ensures Extends(After(EMPTY, admin, events[..k]), After(EMPTY, admin, events))
  {
    if k < |events| {
      var init := events[..|events| - 1];
      DecisionsAreFinal(admin, init, k);
      assert init[..k] == events[..k];
      EveryStateSound(admin, init);
      StepExtends(After(EMPTY, admin, init), admin, events[|events| - 1]);
      ExtendsTransitive(After(EMPTY, admin, events[..k]), After(EMPTY, admin, init), After(EMPTY, admin, events));
    } else {
      assert events[..k] == events;
    }
  }

  lemma ExtendsTransitive(a: Ledger, b: Ledger, c: Ledger)
    requires Extends(a, b) && Extends(b, c)
    ensures Extends(a, c)
  {
    assert forall i :: 0 <= i < |a.inventory| ==> CodeKept(a.inventory[i], b.inventory[i]) && CodeKept(b.inventory[i], c.inventory[i]);
    assert forall i :: 0 <= i < |a.applications| ==>
      ApplicationKept(a.applications[i], b.applications[i]) && ApplicationKept(b.applications[i], c.applications[i]);
  }

  /** The i-th approval gives out the i-th code of the inventory, to one approved applicant who holds no other. */
  lemma IthApprovalGetsIthCode(admin: UserId, events: seq<Event>, i: nat)
    requires i < |After(EMPTY, admin, events).grants|
    ensures var l := After(EMPTY, admin, events);
            && i < |l.inventory| && l.inventory[i] == Code(l.grants[i].code, Some(l.grants[i].user))
            && (exists a :: 0 <= a < |l.applications| && l.applications[a].user == l.grants[i].user && l.applications[a].status.Approved?)
            && (forall j :: 0 <= j < |l.inventory| && l.inventory[j].usedBy == Some(l.grants[i].user) ==> j == i)
  {
    EveryStateSound(admin, events);
    var l := After(EMPTY, admin, events);
    var a :| 0 <= a < |l.applications| && l.applications[a].user == l.grants[i].user;
    assert Granted(l.grants, l.applications[a].user);
  }

  /** An applicant who is not approved, above all one who was rejected, holds no code. */
  lemma OnlyTheApprovedHoldCodes(admin: UserId, events: seq<Event>, a: nat)
    requires a < |After(EMPTY, admin, events).applications|
    ensures var l := After(EMPTY, admin, events);
            l.applications[a].status.Approved? <==> exists j :: 0 <= j < |l.inventory| && l.inventory[j].usedBy == Some(l.applications[a].user)
  {
    EveryStateSound(admin, events);
    var l := After(EMPTY, admin, events);
    if l.applications[a].status.Approved? {
      var k :| 0 <= k < |l.grants| && l.grants[k].user == l.applications[a].user;
      assert l.inventory[k].usedBy == Some(l.applications[a].user);
    }
    if j :| 0 <= j < |l.inventory| && l.inventory[j].usedBy == Some(l.applications[a].user) {
      assert l.grants[j].user == l.applications[a].user;
    }
  }

  // ---- Which event does what ----

  lemma AfterSnoc(admin: UserId, events: seq<Event>, e: Event)
    ensures After(EMPTY, admin, events + [e]) == Step(After(EMPTY, admin, events), admin, e)
  {
    assert (events + [e])[..|events|] == events;
  }

  /** The administrator presses the button with this action under the i-th application, which is still pending. */
  predicate PressFor(l: Ledger, admin: UserId, e: Event, action: string, i: nat) {
    && e.Pressed? && e.callback.from == admin && e.callback.action == action
    && i < |l.applications| && l.applications[i].status.Pending?
    && e.callback.user == Some(l.applications[i].user) && e.callback.app == Some(l.applications[i].id)
  }

  predicate FirstFree(inventory: seq<Code>, k: nat) {
    k < |inventory| && inventory[k].usedBy.None? && forall j :: 0 <= j < k ==> inventory[j].usedBy.Some?
  }

  lemma FirstFreeIs(inventory: seq<Code>, k: nat)
    ensures FirstFree(inventory, k) <==> k < |inventory| && k == FirstUnused(inventory)
  {
  }

  lemma FoundIsTheOne(applications: seq<Application>, i: nat)
    requires OnePerUser(applications) && i < |applications|
    ensures FindApplication(applications, applications[i].user, Some(applications[i].id)) == i
  {
    var j := FindApplication(applications, applications[i].user, Some(applications[i].id));
    assert j <= i;
  }

  /** An approval gives the applicant the first unused code. */
  lemma ApprovePressGrants(admin: UserId, events: seq<Event>, e: Event, i: nat, k: nat)
    requires var l := After(EMPTY, admin, events); PressFor(l, admin, e, "approve", i) && FirstFree(l.inventory, k)
    ensures var l := After(EMPTY, admin, events);
            var user := l.applications[i].user;
            After(EMPTY, admin, events + [e])
            == l.(inventory := l.inventory[k := Code(l.inventory[k].code, Some(user))],
                  applications := l.applications[i := l.applications[i].(status := Approved)],
                  grants := l.grants + [Grant(user, l.inventory[k].code)])
  {
    var l := After(EMPTY, admin, events);
    EveryStateSound(admin, events);
    AfterSnoc(admin, events, e);
    FoundIsTheOne(l.applications, i);
    FirstFreeIs(l.inventory, k);
  }

  /** A rejection changes the status of that application and nothing else. */
  lemma RejectPressRejects(admin: UserId, events: seq<Event>, e: Event, i: nat)
    requires PressFor(After(EMPTY, admin, events), admin, e, "reject", i)
    ensures var l := After(EMPTY, admin, events);
            After(EMPTY, admin, events + [e]) == l.(applications := l.applications[i := l.applications[i].(status := Rejected)])
  {
    EveryStateSound(admin, events);
    AfterSnoc(admin, events, e);
    FoundIsTheOne(After(EMPTY, admin, events).applications, i);
  }

  ghost predicate Approves(l: Ledger, admin: UserId, e: Event) {
    exists i, k :: PressFor(l, admin, e, "approve", i) && FirstFree(l.inventory, k)
  }

  ghost predicate Rejects(l: Ledger, admin: UserId, e: Event) {
    exists i :: PressFor(l, admin, e, "reject", i)
  }

  /** Every other press leaves the ledger as it is. */
  lemma OtherPressesDoNothing(admin: UserId, events: seq<Event>, e: Event)
    requires var l := After(EMPTY, admin, events); e.Pressed? && !Approves(l, admin, e) && !Rejects(l, admin, e)
    ensures After(EMPTY, admin, events + [e]) == After(EMPTY, admin, events)
  {
    var l, c := After(EMPTY, admin, events), e.callback;
    AfterSnoc(admin, events, e);
    if c.from == admin && c.user.Some? && c.app.Some? {
      var i := FindApplication(l.applications, c.user.value, c.app);
      if i < |l.applications| && l.applications[i].status.Pending? {
        assert c.action == "reject" ==> PressFor(l, admin, e, "reject", i);
        if c.action == "approve" {
          assert PressFor(l, admin, e, "approve", i);
          FirstFreeIs(l.inventory, FirstUnused(l.inventory));
        }
      }
    }
  }

  /** A message gives no code away and decides nothing. */
  lemma MessagesDecideNothing(admin: UserId, events: seq<Event>, m: Message)
    ensures var l, l' := After(EMPTY, admin, events), After(EMPTY, admin, events + [Said(m)]);
            l'.grants == l.grants && l.inventory <= l'.inventory && l.applications <= l'.applications
  {
    var l := After(EMPTY, admin, events);
    var text := JsTrim(m.text);
    var l' := OnText(l, admin, m, text).0;
    AfterSnoc(admin, events, Said(m));
    EveryStateSound(admin, events);
    TextOutcome(l, admin, m, text);
    if Restocked(l, l') {
      var codes, none :| l' == Restock(l, codes, none).0;
      AddCodesKeeps(l.inventory, codes, l.grants);
    }
  }

  /** A code is given out if and only if the administrator approves a pending application while there is an unused one. */
  lemma GrantIff(admin: UserId, events: seq<Event>, e: Event)
    ensures After(EMPTY, admin, events + [e]).grants != After(EMPTY, admin, events).grants
       <==> Approves(After(EMPTY, admin, events), admin, e)
  {
    var l := After(EMPTY, admin, events);
    if e.Said? {
      MessagesDecideNothing(admin, events, e.message);
    } else if Approves(l, admin, e) {
      var i, k :| PressFor(l, admin, e, "approve", i) && FirstFree(l.inventory, k);
      ApprovePressGrants(admin, events, e, i, k);
    } else if Rejects(l, admin, e) {
      var i :| PressFor(l, admin, e, "reject", i);
      RejectPressRejects(admin, events, e, i);
    } else {
      OtherPressesDoNothing(admin, events, e);
    }
  }

  /** An application becomes rejected if and only if the administrator rejects it while it is pending. */
  lemma RejectedIff(admin: UserId, events: seq<Event>, e: Event, i: nat)
    requires i < |After(EMPTY, admin, events).applications|
    ensures var l, l' := After(EMPTY, admin, events), After(EMPTY, admin, events + [e]);
            && i < |l'.applications|
            && (!l.applications[i].status.Rejected? && l'.applications[i].status.Rejected? <==> PressFor(l, admin, e, "reject", i))
  {
    var l := After(EMPTY, admin, events);
    if e.Said? {
      MessagesDecideNothing(admin, events, e.message);
    } else if Approves(l, admin, e) {
      var j, k :| PressFor(l, admin, e, "approve", j) && FirstFree(l.inventory, k);
      ApprovePressGrants(admin, events, e, j, k);
    } else if Rejects(l, admin, e) {
      var j :| PressFor(l, admin, e, "reject", j);
      RejectPressRejects(admin, events, e, j);
      EveryStateSound(admin, events);
    } else {
      OtherPressesDoNothing(admin, events, e);
    }
  }

  // ---- Which message does what ----

  predicate Separates(c: char) {
    JsSpace(c) || c == ',' || c == ';'
  }

  predicate IsWord(w: string) {
    forall i :: 0 <= i < |w| ==> !Separates(w[i])
  }

  /** The codes on a line with `/su` are what stands between white space, commas and semicolons. */
  lemma {:induction false} WordThenRest(w: string, c: char, rest: string)
    requires IsWord(w) && Separates(c)
    ensures InlineWords(w + [c] + rest) == [w] + InlineWords(rest)
  {
    if w == "" {
      assert w + [c] + rest == [c] + rest && ([c] + rest)[1..] == rest;
    } else {
      assert (w + [c] + rest)[1..] == w[1..] + [c] + rest;
      WordThenRest(w[1..], c, rest);
      assert [w[0]] + w[1..] == w;
    }
  }

  lemma {:induction false} LastWord(w: string)
    requires IsWord(w)
    ensures InlineWords(w) == [w]
  {
    if w != "" {
      LastWord(w[1..]);
      assert [w[0]] + w[1..] == w;
    }
  }

  lemma {:induction false} LongEnoughIff(words: seq<string>, c: string)
    ensures c in LongEnough(words) <==> c in words && JsLength(c) >= 4
  {
    if words != [] {
      var init, last := words[..|words| - 1], words[|words| - 1];
      assert forall x :: x in words <==> x in init || x == last;
      LongEnoughIff(init, c);
    }
  }

  lemma {:induction false} TrimmedIff(words: seq<string>, c: string)
    ensures c in Trimmed(words) <==> exists w :: w in words && c == JsTrim(w)
  {
    if words != [] {
      var first, rest := words[0], words[1..];
      assert forall x :: x in words <==> x == first || x in rest;
      TrimmedIff(rest, c);
      assert c in Trimmed(words) <==> c == JsTrim(first) || c in Trimmed(rest);
      if c == JsTrim(first) {
        assert first in words;
      } else if c in Trimmed(rest) {
        var w :| w in rest && c == JsTrim(w);
        assert w in words;
      }
    }
  }

  lemma HasCodeSnoc(inventory: seq<Code>, added: string, c: string)
    ensures HasCode(inventory + [Code(added, None)], c) <==> HasCode(inventory, c) || c == added
  {
    var more := inventory + [Code(added, None)];
    assert more[|inventory|].code == added;
    assert forall i :: 0 <= i < |inventory| ==> more[i] == inventory[i];
  }

  lemma {:induction false} AddCodesIff(inventory: seq<Code>, codes: seq<string>, c: string)
    ensures HasCode(AddCodes(inventory, codes), c) <==> HasCode(inventory, c) || c in codes
  {
    if codes != [] {
      var init, last := codes[..|codes| - 1], codes[|codes| - 1];
      assert forall x :: x in codes <==> x in init || x == last;
      AddCodesIff(inventory, init, c);
      AddCodesIff(inventory, init, last);
      HasCodeSnoc(AddCodes(inventory, init), last, c);
    }
  }

  /** A text that is neither a command nor, from the administrator, a list of codes. */
  predicate IsPlain(text: string) {
    !("/start" <= text) && !("/id" <= text) && !("/su" <= text) && AsciiLower(text) != "/done" && AsciiLower(text) != "/cancel"
  }

  /** The administrator sends the code: after `/su`, or as a line of its own in the adding mode. */
  ghost predicate SendsCode(l: Ledger, admin: UserId, m: Message, c: string) {
    var text := JsTrim(m.text);
    m.user == admin && JsLength(c) >= 4 &&
    if "/su" <= text then JsTrim(text[3..]) != "" && c in InlineWords(JsTrim(text[3..]))
    else IsPlain(text) && m.chat in l.suSessions && exists line :: line in Split(text, '\n') && c == JsTrim(line)
  }

  lemma CommandsDiffer(text: string)
    ensures "/su" <= text ==> !("/start" <= text) && !("/id" <= text)
    ensures AsciiLower(text) in {"/done", "/cancel"} ==> !("/start" <= text) && !("/id" <= text) && !("/su" <= text)
  {
    var lower := AsciiLower(text);
    assert "/su" <= text ==> text[1] == 's' && text[2] == 'u';
    assert "/start" <= text ==> text[1] == 's' && text[2] == 't';
    assert "/id" <= text ==> text[1] == 'i';
    assert |text| >= 3 ==> lower[1] == AsciiLowerChar(text[1]);
    assert lower == "/done" ==> lower[1] == 'd';
    assert lower == "/cancel" ==> lower[1] == 'c';
  }

  /** After a message the inventory holds a code if and only if it did before or the administrator sends it. */
  lemma CodeAddedIff(admin: UserId, events: seq<Event>, m: Message, c: string)
    ensures var l, l' := After(EMPTY, admin, events), After(EMPTY, admin, events + [Said(m)]);
            HasCode(l'.inventory, c) <==> HasCode(l.inventory, c) || SendsCode(l, admin, m, c)
  {
    var l, text := After(EMPTY, admin, events), JsTrim(m.text);
    AfterSnoc(admin, events, Said(m));
    CommandsDiffer(text);
    if "/su" <= text {
      CodeAddedBySu(l, admin, m, text, c);
    } else {
      CodeAddedByLine(l, admin, m, text, c);
    }
  }

  lemma CodeAddedBySu(l: Ledger, admin: UserId, m: Message, text: string, c: string)
    requires "/su" <= text && !("/start" <= text) && !("/id" <= text)
    ensures HasCode(OnText(l, admin, m, text).0.inventory, c)
       <==> HasCode(l.inventory, c) ||
            (m.user == admin && JsLength(c) >= 4 && JsTrim(text[3..]) != "" && c in InlineWords(JsTrim(text[3..])))
  {
    if m.user == admin && SuCodes(text).Some? {
      LongEnoughIff(InlineWords(JsTrim(text[3..])), c);
      AddCodesIff(l.inventory, SuCodes(text).value, c);
    }
  }

  lemma LineCodesIff(text: string, c: string)
    ensures c in LineCodes(text) <==> JsLength(c) >= 4 && exists line :: line in Split(text, '\n') && c == JsTrim(line)
  {
    LongEnoughIff(Trimmed(Split(text, '\n')), c);
    TrimmedIff(Split(text, '\n'), c);
  }

  lemma CodeAddedByLine(l: Ledger, admin: UserId, m: Message, text: string, c: string)
    requires !("/su" <= text)
    ensures HasCode(OnText(l, admin, m, text).0.inventory, c)
       <==> HasCode(l.inventory, c) ||
            (m.user == admin && JsLength(c) >= 4 && IsPlain(text) && m.chat in l.suSessions
             && exists line :: line in Split(text, '\n') && c == JsTrim(line))
  {
    LineCodesIff(text, c);
    AddCodesIff(l.inventory, LineCodes(text), c);
    var l' := OnText(l, admin, m, text).0;
    assert l'.inventory == if m.user == admin && IsPlain(text) && m.chat in l.suSessions then AddCodes(l.inventory, LineCodes(text)) else l.inventory;
  }

  ghost predicate HasApplied(l: Ledger, user: UserId) {
    exists i :: 0 <= i < |l.applications| && l.applications[i].user == user
  }

  /**
   * A message is an application if and only if it is plain, its sender has not applied, and it is not the
   * administrator's in the adding mode; then the trimmed text is on record as pending.
   */
  lemma ApplicationAddedIff(admin: UserId, events: seq<Event>, m: Message)
    ensures var l, l', text := After(EMPTY, admin, events), After(EMPTY, admin, events + [Said(m)]), JsTrim(m.text);
            l'.applications == l.applications +
            if IsPlain(text) && !(m.user == admin && m.chat in l.suSessions) && !HasApplied(l, m.user)
            then [Application(m.now, m.user, text, Pending)] else []
  {
    var l, text := After(EMPTY, admin, events), JsTrim(m.text);
    AfterSnoc(admin, events, Said(m));
    ApplicationsAfterText(l, admin, m, text);
    AppliedAdds(l, m, text);
  }

  lemma ApplicationsAfterText(l: Ledger, admin: UserId, m: Message, text: string)
    ensures OnText(l, admin, m, text).0.applications
         == if IsPlain(text) && !(m.user == admin && m.chat in l.suSessions) then Apply(l, m, text).0.applications else l.applications
  {
  }

  lemma AppliedAdds(l: Ledger, m: Message, essay: string)
    ensures Apply(l, m, essay).0.applications
         == l.applications + if HasApplied(l, m.user) then [] else [Application(m.now, m.user, essay, Pending)]
  {
    assert HasApplied(l, m.user) <==> FindApplication(l.applications, m.user, None) < |l.applications|;
  }

  /** A chat is in the adding mode if and only if the administrator has sent a bare `/su` there and not left since. */
  lemma SessionIff(admin: UserId, events: seq<Event>, m: Message, chat: int)
    ensures var l, l', text := After(EMPTY, admin, events), After(EMPTY, admin, events + [Said(m)]), JsTrim(m.text);
            chat in l'.suSessions <==>
              if m.user == admin && m.chat == chat && "/su" <= text && JsTrim(text[3..]) == "" then true
              else if m.user == admin && m.chat == chat && AsciiLower(text) in {"/done", "/cancel"} then false
              else chat in l.suSessions
  {
    var l, text := After(EMPTY, admin, events), JsTrim(m.text);
    AfterSnoc(admin, events, Said(m));
    CommandsDiffer(text);
  }

  // ---- The bot's own code ----

  class Bot {
    const admin: UserId
    var inventory: seq<Code>
    var applications: seq<Application>
    var suSessions: set<int>
    ghost var grants: seq<Grant>

    ghost function View(): Ledger
      reads this
    {
      Ledger(inventory, applications, suSessions, grants)
    }

    constructor (admin: UserId)
      ensures View() == EMPTY && this.admin == admin
    {
      this.admin := admin;
      inventory, applications, suSessions, grants := [], [], {}, [];
    }

    /** The loop that both forms of adding codes share. */
    method Push(codes: seq<string>) returns (added: nat)
      modifies `inventory
      ensures inventory == AddCodes(old(inventory), codes) && added == |inventory| - |old(inventory)|
    {
      added := 0;
      for i := 0 to |codes|
        invariant inventory == AddCodes(old(inventory), codes[..i]) && added == |inventory| - |old(inventory)|
      {
        assert codes[..i + 1][..i] == codes[..i];
        if !HasCode(inventory, codes[i]) {
          inventory := inventory + [Code(codes[i], None)];
          added := added + 1;
        }
      }
      assert codes[..|codes|] == codes;
    }

    method Submit(m: Message, text: string) returns (reply: Reply)
      modifies `applications
      ensures (View(), reply) == Apply(old(View()), m, text)
    {
      var existing := FindApplication(applications, m.user, None);
      if existing < |applications| {
        return AlreadyApplied(applications[existing].status);
      }
      applications := applications + [Application(m.now, m.user, text, Pending)];
      return Submitted;
    }

    /** `handleMessage`, up to the first message it sends. */
    method HandleMessage(m: Message) returns (reply: Reply)
      modifies this
      ensures (View(), reply) == OnMessage(old(View()), admin, m)
    {
      var text := JsTrim(m.text);
      if "/start" <= text {
        return Welcome;
      }
      if "/id" <= text {
        return YourId;
      }
      if "/su" <= text {
        reply := HandleSu(m, text);
        return;
      }
      if IsLeave(text) {
        reply := HandleLeave(m);
        return;
      }
      if m.chat in suSessions && m.user == admin {
        var added := Push(LineCodes(text));
        return if added > 0 then Added(added, Available(inventory)) else NoNewCodes;
      }
      reply := Submit(m, text);
    }

    /** `/done` and `/cancel`. */
    method HandleLeave(m: Message) returns (reply: Reply)
      modifies `suSessions
      ensures (View(), reply) == Leave(old(View()), admin, m)
    {
      if m.user != admin {
        return Silence;
      }
      if m.chat in suSessions {
        suSessions := suSessions - {m.chat};
        return LeftSu(Available(inventory));
      }
      return Silence;
    }

    method HandleSu(m: Message, text: string) returns (reply: Reply)
      requires "/su" <= text && !("/start" <= text) && !("/id" <= text)
      modifies this
      ensures (View(), reply) == OnText(old(View()), admin, m, text)
    {
      if m.user != admin {
        return NotAdmin;
      }
      var codes := SuCodes(text);
      if codes.Some? {
        var added := Push(codes.value);
        return Added(added, Available(inventory));
      }
      suSessions := suSessions + {m.chat};
      return EnteredSu;
    }

    /** `handleCallbackQuery`, up to the first message it sends. */
    method HandleCallbackQuery(c: Callback) returns (reply: Reply)
      modifies this
      ensures (View(), reply) == OnCallback(old(View()), admin, c)
    {
      if c.from != admin {
        return NotAdmin;
      }
      if c.user.None? || c.app.None? {
        return NoSuchApplication;
      }
      var i := FindApplication(applications, c.user.value, c.app);
      if i == |applications| {
        return NoSuchApplication;
      }
      if !applications[i].status.Pending? {
        return AlreadyProcessed(applications[i].status);
      }
      if c.action == "approve" {
        var avail := FirstUnused(inventory);
        if avail == |inventory| {
          return OutOfStock;
        }
        var code, user := inventory[avail].code, applications[i].user;
        inventory := inventory[avail := inventory[avail].(usedBy := Some(user))];
        applications := applications[i := applications[i].(status := Approved)];
        grants := grants + [Grant(user, code)];
        return ApprovedWith(code);
      } else if c.action == "reject" {
        applications := applications[i := applications[i].(status := Rejected)];
        return RejectedNow;
      }
      return Silence;
    }
  }
}
