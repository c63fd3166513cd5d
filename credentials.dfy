/** The API key and secret the client attaches to every request. */
module Credential {

  datatype Credentials = Credentials(key: string, secret: string)

  /** `Credentials::new`: stores both strings as given; any strings, empty ones included, are accepted. */
  function NewCredentials(key: string, secret: string): (c: Credentials)
    ensures c.key == key && c.secret == secret
  {
    Credentials(key, secret)
  }

  /** Construction loses nothing: equal credentials come from equal key and secret. */
  lemma NewCredentialsInjective(k1: string, s1: string, k2: string, s2: string)
    requires NewCredentials(k1, s1) == NewCredentials(k2, s2)
    ensures k1 == k2 && s1 == s2
  {
  }

  /** The repository's unit test `test_new`. */
  lemma NewCredentialsTest()
    ensures NewCredentials("TEST_KEY", "TEST_SECRET") == Credentials("TEST_KEY", "TEST_SECRET")
  {
  }
}
