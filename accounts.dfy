/**
 * The account-id projection of `DXTrade.get_accounts`: from the user-info
 * reply, the first `userDetails` entry's `accounts` list, and the
 * `account` field of each of its items.
 */
module Accounts {
  import opened Wrappers
  import opened Json

  /** `[account['account'] for account in accounts]` over a list's items. */
  function AccountIds(accounts: seq<Json>): (r: Result<seq<Json>, Fault>)
    ensures r.Success? <==> forall i :: 0 <= i < |accounts| ==> accounts[i].JObj? && "account" in accounts[i].fields
    ensures r.Success? ==> |r.value| == |accounts|
    ensures r.Success? ==> forall i :: 0 <= i < |accounts| ==> r.value[i] == accounts[i].fields["account"]
  {
    if accounts == [] then Success([])
    else
      var id :- Subscript(accounts[0], "account");
      var rest :- AccountIds(accounts[1..]);
      Success([id] + rest)
  }

  /** What `get_accounts` returns, and the ids it stores in `self.accounts` when it stores any. */
  datatype AccountsReply = AccountsReply(returned: Json, ids: Option<seq<Json>>)

  /** The user-info reply lists `accounts` as the `accounts` field of its first `userDetails` entry. */
  predicate Listed(userInfo: map<string, Json>, accounts: seq<Json>)
  {
    && "userDetails" in userInfo && userInfo["userDetails"].JArr? && userInfo["userDetails"].items != []
    && userInfo["userDetails"].items[0].JObj?
    && "accounts" in userInfo["userDetails"].items[0].fields
    && userInfo["userDetails"].items[0].fields["accounts"] == JArr(accounts)
  }

  /**
   * `get_accounts` once the user info is fetched: `user_info.get('userDetails')[0]`,
   * then, when that entry is truthy and has `accounts`, the projection of
   * its accounts; otherwise `[]` with nothing stored.
   */
  function AccountsFrom(userInfo: map<string, Json>): (r: Result<AccountsReply, Fault>)
    ensures forall accounts {:trigger Listed(userInfo, accounts)} :: Listed(userInfo, accounts) ==>
              r == match AccountIds(accounts)
                   case Success(ids) => Success(AccountsReply(JArr(accounts), Some(ids)))
                   case Failure(e) => Failure(e)
    ensures "userDetails" in userInfo && userInfo["userDetails"].JArr? && userInfo["userDetails"].items != []
            && userInfo["userDetails"].items[0].JObj? && "accounts" !in userInfo["userDetails"].items[0].fields
            ==> r == Success(AccountsReply(JArr([]), None))
    ensures "userDetails" !in userInfo ==> r == Failure(TypeError)
    ensures r.Success? && r.value.ids.None? ==> r.value.returned == JArr([])
  {
    var details :- First(Get(userInfo, "userDetails"));
    if !Truthy(details) then Success(AccountsReply(JArr([]), None))
    else
      var listed :- Contains(details, "accounts");
      if !listed then Success(AccountsReply(JArr([]), None))
      else if !details.JObj? then Failure(AttributeError)
      else
        var accounts := details.fields["accounts"];
        var items :- Items(accounts);
        var ids :- AccountIds(items);
        Success(AccountsReply(accounts, Some(ids)))
  }
}
