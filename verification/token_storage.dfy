/** The keychain-backed token store. The keychain is a map from
    (service, account) to a password; each session flavor owns one service and
    two accounts in it. */
module TokenStorage {
  import opened Wrappers
  import opened Configuration
  import opened TokenDecoding

  datatype KeychainKey = KeychainKey(service: string, account: string)

  type Keychain = map<KeychainKey, string>

  function Service(flavor: Flavor): string
  {
    match flavor
    case Plain => "OAuthTokenKeychainStorage.keychainService.token"
    case Pkce => "OAuthPKCETokenKeychainStorage.keychainService.token"
  }

  function AccessTokenEntry(flavor: Flavor): KeychainKey
  {
    match flavor
    case Plain => KeychainKey(Service(flavor), "OAuthTokenKeychainStorage.keychainService.account.accessToken")
    case Pkce => KeychainKey(Service(flavor), "OAuthPKCETokenKeychainStorage.keychainService.account.accessToken")
  }

  function RefreshTokenEntry(flavor: Flavor): KeychainKey
  {
    match flavor
    case Plain => KeychainKey(Service(flavor), "OAuthTokenKeychainStorage.keychainService.account.refreshToken")
    case Pkce => KeychainKey(Service(flavor), "OAuthPKCETokenKeychainStorage.keychainService.account.refreshToken")
  }

  /** The keys a flavor ever writes. */
  predicate OwnedBy(flavor: Flavor, key: KeychainKey)
  {
    key == AccessTokenEntry(flavor) || key == RefreshTokenEntry(flavor)
  }

  /** `keychain` and `keychain'` agree on every key the flavor does not own. */
  ghost predicate AgreeOutside(flavor: Flavor, keychain: Keychain, keychain': Keychain)
  {
    forall key | !OwnedBy(flavor, key) :: (key in keychain <==> key in keychain') && (key in keychain ==> keychain[key] == keychain'[key])
  }

  /** `getPassword(account:)`: a missing entry is `nil`, never an error. */
  function Lookup(keychain: Keychain, key: KeychainKey): Option<string>
  {
    if key in keychain then Some(keychain[key]) else None
  }

  /** The flavor's access-token entry, or `nil` when there is none. */
  function GetAccessToken(keychain: Keychain, flavor: Flavor): (r: Option<string>)
    ensures r.Some? <==> AccessTokenEntry(flavor) in keychain
    ensures r.Some? ==> r.value == keychain[AccessTokenEntry(flavor)]
  {
    Lookup(keychain, AccessTokenEntry(flavor))
  }

  /** The flavor's refresh-token entry, or `nil` when there is none. */
  function GetRefreshToken(keychain: Keychain, flavor: Flavor): (r: Option<string>)
    ensures r.Some? <==> RefreshTokenEntry(flavor) in keychain
    ensures r.Some? ==> r.value == keychain[RefreshTokenEntry(flavor)]
  {
    Lookup(keychain, RefreshTokenEntry(flavor))
  }

  /** Both tokens are written with `overwriteExisting: true`; the write results
      are discarded, so storing has no failure outcome. Nothing but the two
      strings is persisted. */
  function StoreToken(keychain: Keychain, flavor: Flavor, token: Token): (keychain': Keychain)
    ensures GetAccessToken(keychain', flavor) == Some(token.accessToken)
    ensures GetRefreshToken(keychain', flavor) == Some(token.refreshToken)
    ensures AgreeOutside(flavor, keychain, keychain')
  {
    keychain[AccessTokenEntry(flavor) := token.accessToken][RefreshTokenEntry(flavor) := token.refreshToken]
  }

  /** Both entries are deleted; the results are discarded. */
  function DeleteToken(keychain: Keychain, flavor: Flavor): (keychain': Keychain)
    ensures GetAccessToken(keychain', flavor) == None
    ensures GetRefreshToken(keychain', flavor) == None
    ensures AgreeOutside(flavor, keychain, keychain')
  {
    keychain - {AccessTokenEntry(flavor), RefreshTokenEntry(flavor)}
  }

  /** Storing depends only on the token: a second store erases every trace of the first. */
  lemma StoreLastWriteWins(keychain: Keychain, flavor: Flavor, first: Token, second: Token)
    ensures StoreToken(StoreToken(keychain, flavor, first), flavor, second) == StoreToken(keychain, flavor, second)
  {
  }

  /** Deleting after storing leaves the keychain as deleting alone would. */
  lemma DeleteUndoesStore(keychain: Keychain, flavor: Flavor, token: Token)
    ensures DeleteToken(StoreToken(keychain, flavor, token), flavor) == DeleteToken(keychain, flavor)
  {
  }

  /** The two flavors use disjoint keys, so neither store nor delete of one
      flavor is visible through the other's getters. */
  lemma FlavorsAreIsolated(keychain: Keychain, flavor: Flavor, other: Flavor, token: Token)
    requires flavor != other
    ensures GetAccessToken(StoreToken(keychain, flavor, token), other) == GetAccessToken(keychain, other)
    ensures GetRefreshToken(StoreToken(keychain, flavor, token), other) == GetRefreshToken(keychain, other)
    ensures GetAccessToken(DeleteToken(keychain, flavor), other) == GetAccessToken(keychain, other)
    ensures GetRefreshToken(DeleteToken(keychain, flavor), other) == GetRefreshToken(keychain, other)
  {
    ServicesDiffer();
    assert AccessTokenEntry(other).service != AccessTokenEntry(flavor).service;
    assert !OwnedBy(flavor, AccessTokenEntry(other)) && !OwnedBy(flavor, RefreshTokenEntry(other));
  }

  /** The two service names differ (already in length). */
  lemma ServicesDiffer()
    ensures Service(Plain) != Service(Pkce)
  {
    assert |Service(Plain)| != |Service(Pkce)|;
  }

  /** Within one flavor the access and refresh accounts differ, so each write
      lands in its own entry. */
  lemma AccountsAreDistinct(flavor: Flavor)
    ensures AccessTokenEntry(flavor) != RefreshTokenEntry(flavor)
    ensures AccessTokenEntry(flavor).service == RefreshTokenEntry(flavor).service == Service(flavor)
  {
  }
}
