/** task_local.rs: the user id of the running task, as a stack of scopes. */
module TaskLocals {
  import opened Prelude

  type UserId = Option<string>

  /** What code does with the task-local: read it, overwrite it, or run more code in a scope of its own. */
  datatype Action = Read | Write(user: UserId) | Scoped(user: UserId, body: seq<Action>)

  function Top(scopes: seq<UserId>): UserId {
    if scopes == [] then None else scopes[|scopes| - 1]
  }

  function WriteTop(scopes: seq<UserId>, user: UserId): (after: seq<UserId>)
    ensures |after| == |scopes|
  {
    if scopes == [] then [] else scopes[|scopes| - 1 := user]
  }

  /** The scopes of one task, innermost last; outside every scope there is no user and writing does nothing. */
  class TaskLocal {
    var scopes: seq<UserId>

    constructor ()
      ensures scopes == []
    {
      scopes := [];
    }

    /** `current_user_id`. */
    method CurrentUserId() returns (user: UserId)
      ensures user == Top(scopes)
    {
      user := if scopes == [] then None else scopes[|scopes| - 1];
    }

    /** `set_user_id`. */
    method SetUserId(user: UserId)
      modifies this
      ensures scopes == WriteTop(old(scopes), user)
    {
      if scopes != [] {
        scopes := scopes[|scopes| - 1 := user];
      }
    }

    /** Runs code in the current scope and returns what it read. */
    method Run(code: seq<Action>) returns (seen: seq<UserId>)
      modifies this
      ensures Executed(seen, scopes) == Execute(old(scopes), code)
      decreases code
    {
      seen := [];
      for i := 0 to |code|
        invariant Then(Executed(seen, []), Execute(scopes, code[i..])) == Execute(old(scopes), code)
      {
        assert code[i..][1..] == code[i + 1..];
        var more := Step(code[i]);
        ThenAgain(seen, more, Execute(scopes, code[i + 1..]));
        seen := seen + more;
      }
    }

    /** One action; `scope_user_id` installs the scope, runs the body and removes the scope again. */
    method Step(action: Action) returns (seen: seq<UserId>)
      modifies this
      ensures Executed(seen, scopes) == ExecuteOne(old(scopes), action)
      decreases action
    {
      match action {
        case Read =>
          var user := CurrentUserId();
          seen := [user];
        case Write(user) =>
          SetUserId(user);
          seen := [];
        case Scoped(user, body) =>
          scopes := scopes + [user];
          seen := Run(body);
          ScopeKept(old(scopes) + [user], body);
          assert scopes[..|scopes| - 1] == old(scopes);
          scopes := scopes[..|scopes| - 1];
      }
    }
  }

  datatype Executed = Executed(seen: seq<UserId>, scopes: seq<UserId>)

  function Then(first: Executed, second: Executed): Executed {
    Executed(first.seen + second.seen, second.scopes)
  }

  lemma ThenAgain(a: seq<UserId>, b: seq<UserId>, rest: Executed)
    ensures Then(Executed(a, []), Then(Executed(b, []), rest)) == Then(Executed(a + b, []), rest)
  {
  }

  function ExecuteOne(scopes: seq<UserId>, action: Action): Executed
    decreases action
  {
    match action
    case Read => Executed([Top(scopes)], scopes)
    case Write(user) => Executed([], WriteTop(scopes, user))
    case Scoped(user, body) => Executed(Execute(scopes + [user], body).seen, scopes)
  }

  function Execute(scopes: seq<UserId>, code: seq<Action>): Executed
    decreases code
  {
    if code == [] then Executed([], scopes)
    else
      var first := ExecuteOne(scopes, code[0]);
      Then(first, Execute(first.scopes, code[1..]))
  }

  // ----- what scopes guarantee ----------------------------------------------------------------------------------

  /** Running code leaves every outer scope alone; only the innermost one may have been overwritten. */
  lemma {:induction false} ScopeKept(scopes: seq<UserId>, code: seq<Action>)
    requires scopes != []
    ensures var after := Execute(scopes, code).scopes;
            |after| == |scopes| && after[..|scopes| - 1] == scopes[..|scopes| - 1]
    decreases code
  {
    if code != [] {
      ScopeKept(ExecuteOne(scopes, code[0]).scopes, code[1..]);
    }
  }

  /** Whether code overwrites the user of the scope it runs in. */
  predicate Overwrites(code: seq<Action>) {
    exists k :: 0 <= k < |code| && code[k].Write?
  }

  /**
   * Code that never writes in its own scope leaves the user as it was, whatever it runs, and overwrites, in scopes of
   * its own.
   */
  lemma {:induction false} UserKept(scopes: seq<UserId>, code: seq<Action>)
    requires !Overwrites(code)
    ensures Execute(scopes, code).scopes == scopes
    decreases code
  {
    if code != [] {
      assert !code[0].Write?;
      assert forall k :: 0 <= k < |code[1..]| ==> code[1..][k] == code[k + 1];
      UserKept(scopes, code[1..]);
    }
  }

  /** `set_user_id` outside every scope is lost, and a scope starts with its own user and ends with the outer one. */
  lemma ScopesNest(user: UserId, other: UserId, body: seq<Action>)
    ensures Execute([], [Write(user), Read]).seen == [None]
    ensures Execute([user], [Scoped(other, [Read] + body), Read]).seen
         == [other] + Execute([user, other], body).seen + [user]
  {
    var outside, inner := [Write(user), Read], [Read] + body;
    assert outside[1..] == [Read] && inner[1..] == body && [user] + [other] == [user, other];
    assert Execute([user, other], inner) == Then(Executed([other], [user, other]), Execute([user, other], body));
    var code := [Scoped(other, inner), Read];
    assert code[1..] == [Read] && [Read][1..] == [];
    assert Execute([user], [Read]) == Executed([user], [user]);
    assert ExecuteOne([user], code[0]) == Executed(Execute([user] + [other], inner).seen, [user]);
    assert Execute([user], code) == Then(ExecuteOne([user], code[0]), Execute([user], [Read]));
  }
}
