/** The Redis key under which a token's user data is cached. */
module CacheKeys {

  const KeyPrefix := "auth_user:"

  /**
   `getCacheKey`: the prefix followed by the token's MD5 digest. The digest
   function is a parameter; being a function, it is deterministic.
   */
  function CacheKey(md5: string -> string, token: string): (key: string)
    ensures |KeyPrefix| <= |key| && key[..|KeyPrefix|] == KeyPrefix
  {
    KeyPrefix + md5(token)
  }

  /** Two tokens share a cache key exactly when they share a digest. */
  lemma CacheKeySharedIffDigestShared(md5: string -> string, a: string, b: string)
    ensures CacheKey(md5, a) == CacheKey(md5, b) <==> md5(a) == md5(b)
  {
    if CacheKey(md5, a) == CacheKey(md5, b) {
      assert md5(a) == CacheKey(md5, a)[|KeyPrefix|..];
      assert md5(b) == CacheKey(md5, b)[|KeyPrefix|..];
    }
  }
}
