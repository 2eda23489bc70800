/** `start_mock_investment`: a guarded insert into the mock balances table.
    The token check, the user lookup and the existing-balance check run in
    that order; only when all pass is a balance row with the column default
    of 10,000 created. Token decoding is an abstract partial map from
    tokens to user ids. */
module MockInvestment {
  import opened Common

  /** The `balance` column default of `MockBalance`. */
  const DefaultBalance: int := 10000

  datatype MockBalance = MockBalance(userId: int, balance: int)

  /** The endpoint's answer: the balance was created, or an HTTP error. */
  datatype StartResult = Created | HttpError(status: int)

  /** The user ids that already hold a balance. */
  function Holders(balances: seq<MockBalance>): (r: set<int>)
    ensures forall u :: u in r <==> exists i :: 0 <= i < |balances| && balances[i].userId == u
  {
    if |balances| == 0 then {}
    else Holders(balances[..|balances| - 1]) + {balances[|balances| - 1].userId}
  }

  /** The guard chain: no (or an empty) token cookie and a token that does
      not decode both give 401, an unknown user 404, a user who already
      holds a balance 400; otherwise the balance is created. */
  function Decide(token: Option<string>, decode: map<string, int>, users: set<int>,
                  holders: set<int>): (r: StartResult)
    ensures r == HttpError(401) <==> token.None? || token.value == "" || token.value !in decode
    ensures r == HttpError(404) <==>
              token.Some? && token.value != "" && token.value in decode
              && decode[token.value] !in users
    ensures r == HttpError(400) <==>
              token.Some? && token.value != "" && token.value in decode
              && decode[token.value] in users && decode[token.value] in holders
    ensures r == Created <==>
              token.Some? && token.value != "" && token.value in decode
              && decode[token.value] in users && decode[token.value] !in holders
  {
    if token.None? || token.value == "" then HttpError(401)
    else if token.value !in decode then HttpError(401)
    else
      var userId := decode[token.value];
      if userId !in users then HttpError(404)
      else if userId in holders then HttpError(400)
      else Created
  }

  class MockInvestmentStore {
    /** The ids of the registered users. */
    var users: set<int>
    /** The `mock_balances` table in insertion order. */
    var balances: seq<MockBalance>

    /** `user_id` is the table's primary key, and each balance belongs to a
        registered user. */
    ghost predicate Valid()
      reads this
    {
      && (forall i, j :: 0 <= i < j < |balances| ==> balances[i].userId != balances[j].userId)
      && Holders(balances) <= users
    }

    constructor (users: set<int>)
      ensures Valid() && this.users == users && balances == []
    {
      this.users := users;
      balances := [];
    }

    /** `start_mock_investment`: the answer is the guard chain's verdict;
        only `Created` inserts a row, holding the default balance, and an
        error leaves the table as it was. */
    method StartMockInvestment(token: Option<string>, decode: map<string, int>)
      returns (r: StartResult)
      requires Valid()
      modifies this
      ensures Valid()
      ensures r == Decide(token, decode, old(users), Holders(old(balances)))
      ensures r == Created ==> balances == old(balances) + [MockBalance(decode[token.value], DefaultBalance)]
      ensures r != Created ==> balances == old(balances)
      ensures users == old(users)
    {
      if token.None? || token.value == "" {
        return HttpError(401);
      }
      if token.value !in decode {
        return HttpError(401);
      }
      var userId := decode[token.value];
      if userId !in users {
        return HttpError(404);
      }
      if userId in Holders(balances) {
        return HttpError(400);
      }
      var row := MockBalance(userId, DefaultBalance);
      assert Holders(balances + [row]) == Holders(balances) + {userId} by {
        assert (balances + [row])[..|balances|] == balances;
      }
      balances := balances + [row];
      r := Created;
    }
  }

  /** A second start by the same user is refused with 400 and changes
      nothing: a user holds at most one balance. */
  method SecondStartRefused(token: string, userId: int) returns (first: StartResult, second: StartResult)
    requires token != ""
    ensures first == Created && second == HttpError(400)
  {
    var store := new MockInvestmentStore({userId});
    first := store.StartMockInvestment(Some(token), map[token := userId]);
    second := store.StartMockInvestment(Some(token), map[token := userId]);
  }
}
