/**
 * The session store of src/store/useAuthStore.ts: a zustand store with the
 * fields token, refreshToken and user, persisted by the persist middleware
 * under the key "auth-storage". Persistence is reduced to one bit: whether an
 * entry is stored under that key.
 */
module AuthStore {
  import opened Wrappers

  const StorageKey := "auth-storage"

  /** Roles the application names; a decoded token may carry any string. */
  const Admin := "admin"
  const Operator := "operator"
  const Viewer := "viewer"

  datatype User = User(id: string, email: string, role: string)

  datatype Session = Session(token: Option<string>, refreshToken: Option<string>, user: Option<User>)

  const EmptySession := Session(None, None, None)

  /** A field of a partial object: omitted (the merge keeps the old value) or given. */
  datatype Patch<T> = Keep | Put(value: T)

  /** The argument of setSession: token and refreshToken are always given, user may be omitted. */
  datatype SessionPatch = SessionPatch(token: Option<string>, refreshToken: Option<string>, user: Patch<Option<User>>)

  /** The store's fields together with the presence of the persisted entry. */
  datatype StoreState = StoreState(session: Session, persisted: bool)

  const LoggedOut := StoreState(EmptySession, false)

  datatype StoreOp = SetSessionCall(patch: SessionPatch) | LogoutCall

  /** JavaScript truthiness of a `string | null` value. */
  predicate Truthy(s: Option<string>) {
    s.Some? && s.value != ""
  }

  /** zustand's `set(s)`: a shallow merge of `s` into the state. */
  function Merge(s: Session, p: SessionPatch): Session {
    Session(p.token, p.refreshToken, match p.user case Keep => s.user case Put(u) => u)
  }

  /** The effect of one store operation; every `set` writes the entry through. */
  function Step(st: StoreState, op: StoreOp): StoreState {
    match op
    case SetSessionCall(p) => StoreState(Merge(st.session, p), true)
    case LogoutCall => LoggedOut
  }

  /** The state after a sequence of operations, applied in order. */
  function Replay(st: StoreState, ops: seq<StoreOp>): StoreState
    decreases |ops|
  {
    if ops == [] then st else Replay(Step(st, ops[0]), ops[1..])
  }

  /** The user written last by `ops` (scanning from the end), or `initial` if none writes one. */
  function LastUserWrite(ops: seq<StoreOp>, initial: Option<User>): Option<User>
    decreases |ops|
  {
    if ops == [] then initial
    else match ops[|ops| - 1]
      case LogoutCall => None
      case SetSessionCall(p) =>
        match p.user
        case Put(u) => u
        case Keep => LastUserWrite(ops[..|ops| - 1], initial)
  }

  lemma LogoutClearsAll(st: StoreState)
    ensures Step(st, LogoutCall).session == Session(None, None, None)
    ensures !Step(st, LogoutCall).persisted
  {
  }

  lemma LogoutIdempotent(st: StoreState)
    ensures Step(Step(st, LogoutCall), LogoutCall) == Step(st, LogoutCall)
  {
  }

  lemma SetSessionSetsTokens(st: StoreState, p: SessionPatch)
    ensures Step(st, SetSessionCall(p)).session.token == p.token
    ensures Step(st, SetSessionCall(p)).session.refreshToken == p.refreshToken
    ensures Step(st, SetSessionCall(p)).persisted
  {
  }

  lemma SetSessionWithoutUserKeepsUser(st: StoreState, token: Option<string>, refreshToken: Option<string>)
    ensures Step(st, SetSessionCall(SessionPatch(token, refreshToken, Keep))).session.user == st.session.user
  {
  }

  lemma SetSessionThenLogout(st: StoreState, p: SessionPatch)
    ensures Step(Step(st, SetSessionCall(p)), LogoutCall) == LoggedOut
  {
  }

  lemma {:induction false} ReplayAppend(st: StoreState, ops: seq<StoreOp>, op: StoreOp)
    ensures Replay(st, ops + [op]) == Step(Replay(st, ops), op)
    decreases |ops|
  {
    if ops == [] {
      assert [op][1..] == [];
    } else {
      assert (ops + [op])[0] == ops[0];
      assert (ops + [op])[1..] == ops[1..] + [op];
      ReplayAppend(Step(st, ops[0]), ops[1..], op);
    }
  }

  /** After any non-empty sequence of calls, token and refreshToken are the last call's (or cleared). */
  lemma {:induction false} ReplayReflectsLastCall(st: StoreState, ops: seq<StoreOp>)
    requires |ops| > 0
    ensures ops[|ops| - 1].LogoutCall? ==> Replay(st, ops) == LoggedOut
    ensures ops[|ops| - 1].SetSessionCall? ==>
      Replay(st, ops).session.token == ops[|ops| - 1].patch.token &&
      Replay(st, ops).session.refreshToken == ops[|ops| - 1].patch.refreshToken &&
      Replay(st, ops).persisted
  {
    var init := ops[..|ops| - 1];
    assert init + [ops[|ops| - 1]] == ops;
    ReplayAppend(st, init, ops[|ops| - 1]);
  }

  /** The stored user is the one written last; a setSession without a user writes none. */
  lemma {:induction false} ReplayUser(st: StoreState, ops: seq<StoreOp>)
    ensures Replay(st, ops).session.user == LastUserWrite(ops, st.session.user)
    decreases |ops|
  {
    if ops != [] {
      var init := ops[..|ops| - 1];
      assert init + [ops[|ops| - 1]] == ops;
      ReplayAppend(st, init, ops[|ops| - 1]);
      ReplayUser(st, init);
    }
  }

  /** The store object; each method is the state change of the matching StoreOp. */
  class Store {
    var token: Option<string>
    var refreshToken: Option<string>
    var user: Option<User>
    var persisted: bool

    function State(): StoreState
      reads this
    {
      StoreState(Session(token, refreshToken, user), persisted)
    }

    /** The initial state; `stored` says whether an entry already exists under StorageKey. */
    constructor (stored: bool)
      ensures State() == StoreState(EmptySession, stored)
    {
      token, refreshToken, user := None, None, None;
      persisted := stored;
    }

    method SetSession(p: SessionPatch)
      modifies this
      ensures State() == Step(old(State()), SetSessionCall(p))
    {
      token, refreshToken := p.token, p.refreshToken;
      if p.user.Put? {
        user := p.user.value;
      }
      persisted := true;
    }

    method Logout()
      modifies this
      ensures State() == Step(old(State()), LogoutCall)
    {
      token, refreshToken, user := None, None, None;
      persisted := true;
      // localStorage.removeItem(StorageKey) after the write-through of `set`
      persisted := false;
    }
  }
}
