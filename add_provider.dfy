/** The add-provider form (dotDNS/Features/Providers/ViewModels/AddProviderViewModel.swift).
    The providers list the new provider is handed to, and the keychain, stay outside: the
    provider is returned, and the keychain is an oracle saying which save throws. */
module AddProvider {
  import opened Wrappers
  import opened CloudflareModels
  import opened Providers
  import opened Cloudflare
  import opened Failures
  import ProviderErrors

  const KeyPrefix := "cloudflare"

  /** The credentials the form describes: a token alone, or an e-mail with a global key. */
  function FormCredentials(useApiToken: bool, apiToken: string, email: string, globalApiKey: string): CloudflareCredentials {
    if useApiToken then WithToken(apiToken) else WithGlobalKey(email, globalApiKey)
  }

  /** Whatever the form holds, its credentials can authenticate, in exactly one style. */
  lemma FormCredentialsAuthenticate(useApiToken: bool, apiToken: string, email: string, globalApiKey: string)
    ensures FormCredentials(useApiToken, apiToken, email, globalApiKey).CanAuthenticate()
    ensures FormCredentials(useApiToken, apiToken, email, globalApiKey).token.Some? <==> useApiToken
    ensures FormCredentials(useApiToken, apiToken, email, globalApiKey).email.Some? <==> !useApiToken
    ensures FormCredentials(useApiToken, apiToken, email, globalApiKey).globalApiKey.Some? <==> !useApiToken
  {
  }

  /** The keychain saves the form asks for, as (key, value) pairs in order: one per
      credential of the chosen style, each under its own key with the vendor's prefix. */
  function KeychainEntries(useApiToken: bool, apiToken: string, email: string, globalApiKey: string)
    : (entries: seq<(string, string)>)
    ensures |entries| == if useApiToken then 1 else 2
    ensures forall i :: 0 <= i < |entries| ==> KeyPrefix <= entries[i].0
    ensures forall i, j :: 0 <= i < j < |entries| ==> entries[i].0 != entries[j].0
    ensures useApiToken ==> entries[0].1 == apiToken
    ensures !useApiToken ==> entries[0].1 == email && entries[1].1 == globalApiKey
  {
    if useApiToken then [(KeyPrefix + "_api_token", apiToken)]
    else [(KeyPrefix + "_email", email), (KeyPrefix + "_global_key", globalApiKey)]
  }

  /** The saved entries pin down the credentials they came from. */
  lemma KeychainDeterminesCredentials(u1: bool, t1: string, e1: string, k1: string,
                                      u2: bool, t2: string, e2: string, k2: string)
    requires KeychainEntries(u1, t1, e1, k1) == KeychainEntries(u2, t2, e2, k2)
    ensures FormCredentials(u1, t1, e1, k1) == FormCredentials(u2, t2, e2, k2)
  {
  }

  /** Every save in `entries` goes through. */
  predicate KeychainAccepts(keychain: (string, string) -> Option<Failure>, entries: seq<(string, string)>) {
    forall i :: 0 <= i < |entries| ==> keychain(entries[i].0, entries[i].1).None?
  }

  /** The saves of `entries` were tried in order and stopped at the first that threw:
      `attempted` is a non-empty prefix of `entries` all but whose last save went through,
      `thrown` is that last save's error when it failed, and nothing was thrown exactly when
      every save goes through. */
  predicate SavedUntilFirstFailure(keychain: (string, string) -> Option<Failure>, entries: seq<(string, string)>,
                                   attempted: seq<(string, string)>, thrown: Option<Failure>) {
    && 1 <= |attempted| <= |entries| && attempted == entries[..|attempted|]
    && KeychainAccepts(keychain, attempted[..|attempted| - 1])
    && (thrown == None <==> KeychainAccepts(keychain, entries))
    && (thrown.Some? ==> keychain(attempted[|attempted| - 1].0, attempted[|attempted| - 1].1) == thrown)
  }

  /** The token-verify endpoint reports the token active. */
  predicate TokenActive(remote: Remote) {
    remote.tokenVerify.Success? && remote.tokenVerify.value.success
    && remote.tokenVerify.value.result.status == Some("active")
  }

  /** The user endpoint delivers the account details. */
  predicate UserAvailable(remote: Remote) {
    remote.user.Success? && remote.user.value.success && remote.user.value.result.Some?
  }

  /** The error `addCloudflareProvider` throws while verifying the form's credentials, if any:
      the token check's transport error, an inactive token, or the failure to fetch the user's
      details (which e-mail and key verification and the following fetch both need). */
  function ConnectionFailure(useApiToken: bool, remote: Remote): (r: Option<Failure>)
    ensures r.None? <==> (useApiToken ==> TokenActive(remote)) && UserAvailable(remote)
    ensures useApiToken && remote.tokenVerify.Failure? ==> r == Some(remote.tokenVerify.error)
    ensures useApiToken && remote.tokenVerify.Success? && !TokenActive(remote) ==>
      r == Some(ServiceFailure(InvalidCredentials))
    ensures (useApiToken ==> TokenActive(remote)) && !UserAvailable(remote) ==>
      r == Some(UserFetchError(remote.user))
  {
    if useApiToken && remote.tokenVerify.Failure? then Some(remote.tokenVerify.error)
    else if useApiToken && !TokenActive(remote) then Some(ServiceFailure(InvalidCredentials))
    else if !UserAvailable(remote) then Some(UserFetchError(remote.user))
    else None
  }

  /** The provider a verified connection creates: named after the account e-mail. */
  function ConnectedProvider(id: Uuid, user: UserDetails, credentials: CloudflareCredentials): Provider {
    Provider(id, user.email, Cloudflare, true, Some(user.email), Some(CloudflareKind(credentials)))
  }

  class AddProviderViewModel {
    var selectedProviderType: ProviderType
    var apiToken: string
    var email: string
    var globalApiKey: string
    var useApiToken: bool
    var saveCredentials: bool
    var verifyConnection: bool
    var isLoading: bool
    var errorMessage: Option<string>
    var isAuthenticated: bool
    var userName: Option<string>
    var userEmail: Option<string>

    constructor ()
      ensures selectedProviderType == Cloudflare && apiToken == "" && email == "" && globalApiKey == ""
      ensures useApiToken && saveCredentials && verifyConnection
      ensures !isLoading && errorMessage == None && !isAuthenticated
      ensures userName == None && userEmail == None
    {
      selectedProviderType := Cloudflare;
      apiToken := "";
      email := "";
      globalApiKey := "";
      useApiToken := true;
      saveCredentials := true;
      verifyConnection := true;
      isLoading := false;
      errorMessage := None;
      isAuthenticated := false;
      userName := None;
      userEmail := None;
    }

    /** Only Cloudflare is accepted, with a token or with both an e-mail and a key: exactly
        the Cloudflare forms none of whose keychain values would be empty. */
    function IsValid(): (valid: bool)
      reads this
      ensures valid <==>
        (selectedProviderType == Cloudflare
         && forall i :: 0 <= i < |Entries()| ==> Entries()[i].1 != "")
    {
      match selectedProviderType
      case Cloudflare =>
        assert Entries()[0].1 == if useApiToken then apiToken else email;
        assert !useApiToken ==> Entries()[1].1 == globalApiKey;
        if useApiToken then apiToken != "" else email != "" && globalApiKey != ""
      case _ => false
    }

    function Credentials(): CloudflareCredentials
      reads this
    {
      FormCredentials(useApiToken, apiToken, email, globalApiKey)
    }

    function Entries(): seq<(string, string)>
      reads this
    {
      KeychainEntries(useApiToken, apiToken, email, globalApiKey)
    }

    /** A valid form names Cloudflare and fills in every credential its style needs. */
    lemma ValidFormFilled()
      ensures IsValid() <==>
        (selectedProviderType == Cloudflare
         && if useApiToken then Credentials().token == Some(apiToken) && apiToken != ""
            else Credentials().email == Some(email) && Credentials().globalApiKey == Some(globalApiKey)
                 && email != "" && globalApiKey != "")
    {
    }

    /** `addCloudflareProvider`: when asked to verify, the credentials must verify and the
        account details arrive; the details are shown and the connected provider returned.
        Without verification nothing is sent and no provider is created. */
    method AddCloudflareProvider(remote: Remote, newId: Uuid)
      returns (r: Outcome<Failure>, added: Option<Provider>, sent: seq<SentRequest>)
      modifies this`userName, this`userEmail
      ensures !verifyConnection ==> r == Pass && added == None && sent == []
      ensures verifyConnection ==> (r.Pass? <==> (useApiToken ==> TokenActive(remote)) && UserAvailable(remote))
      ensures verifyConnection && r.Fail? ==> ConnectionFailure(useApiToken, remote) == Some(r.error)
      ensures verifyConnection && r.Pass? ==>
        (UserAvailable(remote)
         && added == Some(ConnectedProvider(newId, remote.user.value.result.value, Credentials()))
         && userName == Some(FullName(remote.user.value.result.value))
         && userEmail == Some(remote.user.value.result.value.email))
      ensures r.Fail? ==> added == None
      ensures added == None ==> userName == old(userName) && userEmail == old(userEmail)
    {
      var credentials := if useApiToken then WithToken(apiToken) else WithGlobalKey(email, globalApiKey);
      var service := new CloudflareService(credentials);
      added, sent := None, [];
      r := Pass;
      if verifyConnection {
        var verified, sentVerify := service.VerifyCredentials(remote);
        sent := sentVerify;
        if verified.Fail? {
          return verified, None, sent;
        }
        var details, sentUser := service.GetUserDetails(remote);
        sent := sent + sentUser;
        if details.Failure? {
          return Fail(details.error), None, sent;
        }
        var user := details.value;
        userName := Some(FullName(user));
        userEmail := Some(user.email);
        added := Some(ConnectedProvider(newId, user, credentials));
      }
    }

    /** `saveToKeychain`: the saves are attempted in order and the first one that throws
        ends the run; `attempted` lists the saves tried. */
    method SaveToKeychain(keychain: (string, string) -> Option<Failure>)
      returns (r: Outcome<Failure>, attempted: seq<(string, string)>)
      ensures 1 <= |attempted| <= |Entries()| && attempted == Entries()[..|attempted|]
      ensures r.Pass? <==> KeychainAccepts(keychain, Entries())
      ensures r.Pass? ==> attempted == Entries()
      ensures KeychainAccepts(keychain, attempted[..|attempted| - 1])
      ensures r.Fail? ==> keychain(attempted[|attempted| - 1].0, attempted[|attempted| - 1].1) == Some(r.error)
    {
      if useApiToken {
        attempted := [(KeyPrefix + "_api_token", apiToken)];
        var e := keychain(KeyPrefix + "_api_token", apiToken);
        assert Entries()[0] == (KeyPrefix + "_api_token", apiToken);
        if e.Some? {
          return Fail(e.value), attempted;
        }
      } else {
        attempted := [(KeyPrefix + "_email", email)];
        var e := keychain(KeyPrefix + "_email", email);
        assert Entries()[0] == (KeyPrefix + "_email", email);
        if e.Some? {
          return Fail(e.value), attempted;
        }
        attempted := attempted + [(KeyPrefix + "_global_key", globalApiKey)];
        e := keychain(KeyPrefix + "_global_key", globalApiKey);
        assert Entries()[1] == (KeyPrefix + "_global_key", globalApiKey);
        if e.Some? {
          return Fail(e.value), attempted;
        }
      }
      r := Pass;
    }

    /** The body of `addProvider`'s do-block for a valid form: create the provider, then
        save the credentials; `thrown` is the first error raised, if any. */
    method Attempt(remote: Remote, keychain: (string, string) -> Option<Failure>, newId: Uuid)
      returns (thrown: Option<Failure>, added: Option<Provider>, attempted: seq<(string, string)>, sent: seq<SentRequest>)
      requires IsValid()
      modifies this`userName, this`userEmail
      ensures !verifyConnection ==> added == None && sent == []
      ensures verifyConnection ==>
        (added.Some? <==> (useApiToken ==> TokenActive(remote)) && UserAvailable(remote))
      ensures added.Some? ==>
        (UserAvailable(remote)
         && added.value == ConnectedProvider(newId, remote.user.value.result.value, Credentials())
         && userName == Some(FullName(remote.user.value.result.value))
         && userEmail == Some(remote.user.value.result.value.email))
      ensures added == None ==> userName == old(userName) && userEmail == old(userEmail)
      ensures verifyConnection && added == None ==>
        attempted == [] && thrown.Some? && thrown == ConnectionFailure(useApiToken, remote)
      ensures !saveCredentials ==> attempted == [] && (thrown == None <==> !verifyConnection || added.Some?)
      ensures saveCredentials && (!verifyConnection || added.Some?) ==>
        SavedUntilFirstFailure(keychain, Entries(), attempted, thrown)
    {
      attempted := [];
      match selectedProviderType {
        case Cloudflare =>
          var r;
          r, added, sent := AddCloudflareProvider(remote, newId);
          thrown := if r.Fail? then Some(r.error) else None;
        case _ =>
          thrown, added, sent := Some(ProviderFailure(ProviderErrors.UnsupportedProvider)), None, [];
      }
      if thrown == None && saveCredentials {
        var saved;
        saved, attempted := SaveToKeychain(keychain);
        if saved.Fail? {
          thrown := Some(saved.error);
        }
      }
    }

    /** `addProvider`: an invalid form changes nothing. Otherwise the provider is created
        (when verification is asked for), the credentials saved (when asked for), and the
        form is authenticated exactly when nothing threw; a thrown error's description is
        shown. The form's inputs are never changed. */
    method AddProvider(remote: Remote, keychain: (string, string) -> Option<Failure>, newId: Uuid)
      returns (thrown: Option<Failure>, added: Option<Provider>, attempted: seq<(string, string)>, sent: seq<SentRequest>)
      modifies this
      ensures selectedProviderType == old(selectedProviderType) && apiToken == old(apiToken)
      ensures email == old(email) && globalApiKey == old(globalApiKey) && useApiToken == old(useApiToken)
      ensures saveCredentials == old(saveCredentials) && verifyConnection == old(verifyConnection)
      ensures !old(IsValid()) ==>
        unchanged(this) && thrown == None && added == None && attempted == [] && sent == []
      ensures old(IsValid()) ==> !isLoading && (isAuthenticated <==> thrown == None)
      ensures old(IsValid()) && thrown == None ==> errorMessage == None
      ensures old(IsValid()) && thrown.Some? ==> errorMessage == Some(LocalizedDescription(thrown.value))
      ensures !verifyConnection ==> added == None && sent == []
      ensures old(IsValid()) && verifyConnection ==>
        (added.Some? <==> (useApiToken ==> TokenActive(remote)) && UserAvailable(remote))
      ensures added.Some? ==>
        (UserAvailable(remote)
         && added.value == ConnectedProvider(newId, remote.user.value.result.value, Credentials())
         && userName == Some(FullName(remote.user.value.result.value))
         && userEmail == Some(remote.user.value.result.value.email))
      ensures added == None ==> userName == old(userName) && userEmail == old(userEmail)
      ensures !saveCredentials || (verifyConnection && added == None) ==> attempted == []
      ensures old(IsValid()) && saveCredentials && (!verifyConnection || added.Some?) ==>
        SavedUntilFirstFailure(keychain, Entries(), attempted, thrown)
      ensures old(IsValid()) && !verifyConnection && !saveCredentials ==> isAuthenticated
      ensures old(IsValid()) && verifyConnection && added == None ==>
        thrown.Some? && thrown == ConnectionFailure(useApiToken, remote) && !isAuthenticated
      ensures old(IsValid()) && !saveCredentials ==> (isAuthenticated <==> !verifyConnection || added.Some?)
    {
      if !IsValid() {
        return None, None, [], [];
      }
      isLoading := true;
      errorMessage := None;
      ghost var entries := Entries();
      thrown, added, attempted, sent := Attempt(remote, keychain, newId);
      assert Entries() == entries;
      match thrown {
        case None =>
          isAuthenticated := true;
        case Some(e) =>
          errorMessage := Some(LocalizedDescription(e));
          isAuthenticated := false;
      }
      isLoading := false;
    }
  }
}
