/**
 * The list of accounts the user is asked to choose from before a device is
 * registered: the signed-in account first, tagged with the OAuth2 sentinel,
 * then every other account the account manager returned, tagged with its
 * position in the returned list.
 */
module AccountChoices {
  import opened DiscoveryTypes

  /** The signed-in user's name, or the empty string when no sign-in manager exists. */
  function SyncAccount(signedInUser: Option<string>): string {
    match signedInUser
    case None => ""
    case Some(user) => user
  }

  /** The head of the list: the signed-in account, when there is one. */
  function SyncChoice(syncAccount: string): seq<AccountChoice> {
    if syncAccount == "" then [] else [AccountChoice(AccountIndexUseOAuth2, syncAccount)]
  }

  /**
   * The entries for the returned accounts: (i, accounts[i]) for each position
   * whose account differs from the signed-in one. Skipped positions still count.
   */
  function SecondaryChoices(syncAccount: string, accounts: seq<string>): seq<AccountChoice>
    decreases |accounts|
  {
    if accounts == [] then []
    else
      var n := |accounts| - 1;
      SecondaryChoices(syncAccount, accounts[..n])
        + (if accounts[n] == syncAccount then [] else [AccountChoice(n, accounts[n])])
  }

  function AccountChoicesFor(syncAccount: string, accounts: seq<string>): seq<AccountChoice> {
    SyncChoice(syncAccount) + SecondaryChoices(syncAccount, accounts)
  }

  /**
   * Builds the annotated list with an index that advances over every returned
   * account, including the ones skipped as duplicates of the signed-in account.
   */
  method BuildAccountChoices(syncAccount: string, accounts: seq<string>) returns (list: seq<AccountChoice>)
    ensures list == AccountChoicesFor(syncAccount, accounts)
  {
    list := [];
    if syncAccount != "" {
      list := list + [AccountChoice(AccountIndexUseOAuth2, syncAccount)];
    }
    var accountIndex := 0;
    while accountIndex < |accounts|
      invariant 0 <= accountIndex <= |accounts|
      invariant list == SyncChoice(syncAccount) + SecondaryChoices(syncAccount, accounts[..accountIndex])
    {
      assert accounts[..accountIndex + 1][..accountIndex] == accounts[..accountIndex];
      if accounts[accountIndex] != syncAccount {
        list := list + [AccountChoice(accountIndex, accounts[accountIndex])];
      }
      accountIndex := accountIndex + 1;
    }
    assert accounts[..accountIndex] == accounts;
  }

  /** Every secondary entry names a real position of the returned list, holding that account, which is not the signed-in one. */
  lemma {:induction false} SecondaryChoicesSound(syncAccount: string, accounts: seq<string>)
    ensures forall k :: 0 <= k < |SecondaryChoices(syncAccount, accounts)| ==>
      var c := SecondaryChoices(syncAccount, accounts)[k];
      0 <= c.index < |accounts| && accounts[c.index] == c.account && c.account != syncAccount
    decreases |accounts|
  {
    if accounts != [] {
      var n := |accounts| - 1;
      SecondaryChoicesSound(syncAccount, accounts[..n]);
    }
  }

  /** Every position whose account is not the signed-in one has its entry. */
  lemma {:induction false} SecondaryChoicesComplete(syncAccount: string, accounts: seq<string>, i: nat)
    requires i < |accounts| && accounts[i] != syncAccount
    ensures AccountChoice(i, accounts[i]) in SecondaryChoices(syncAccount, accounts)
    decreases |accounts|
  {
    var n := |accounts| - 1;
    if i < n {
      SecondaryChoicesComplete(syncAccount, accounts[..n], i);
    }
  }

  /** Secondary entries appear in strictly increasing position order. */
  lemma {:induction false} SecondaryChoicesIncreasing(syncAccount: string, accounts: seq<string>)
    ensures forall k, l :: 0 <= k < l < |SecondaryChoices(syncAccount, accounts)| ==>
      SecondaryChoices(syncAccount, accounts)[k].index < SecondaryChoices(syncAccount, accounts)[l].index
    decreases |accounts|
  {
    if accounts != [] {
      var n := |accounts| - 1;
      SecondaryChoicesIncreasing(syncAccount, accounts[..n]);
      SecondaryChoicesSound(syncAccount, accounts[..n]);
    }
  }

  /**
   * The shape of the whole list: it starts with the OAuth2 sentinel entry
   * exactly when there is a signed-in account, and no later entry carries the
   * sentinel.
   */
  lemma AccountChoicesShape(syncAccount: string, accounts: seq<string>)
    ensures var list := AccountChoicesFor(syncAccount, accounts);
      (|list| > 0 && list[0].index == AccountIndexUseOAuth2) <==> syncAccount != ""
    ensures syncAccount != "" ==> AccountChoicesFor(syncAccount, accounts)[0] == AccountChoice(AccountIndexUseOAuth2, syncAccount)
    ensures var list := AccountChoicesFor(syncAccount, accounts);
      forall k :: 1 <= k < |list| ==> list[k].index >= 0
  {
    SecondaryChoicesSound(syncAccount, accounts);
  }
}
