/** The application ID and secret that `Facebookclient::getFacebook` hands to the SDK. */
module AppConfig {
  import Php

  /** The `facebook` section of the site configuration; an unset key reads as "". */
  datatype FacebookConfig = FacebookConfig(appid: string, secret: string, globalAppid: string, globalSecret: string)

  datatype AppCredentials = AppCredentials(appId: string, secret: string)

  /**
   * Explicit arguments win, then the local configuration; if either value is still
   * empty, both are replaced by the global pair, so a local and a global value are
   * never mixed.
   */
  function GetFacebook(appId: string, secret: string, config: FacebookConfig): (r: AppCredentials)
    ensures !Php.Empty(appId) && !Php.Empty(secret) ==> r == AppCredentials(appId, secret)
    ensures Php.Empty(appId) && Php.Empty(secret) && !Php.Empty(config.appid) && !Php.Empty(config.secret) ==>
      r == AppCredentials(config.appid, config.secret)
    ensures r == AppCredentials(config.globalAppid, config.globalSecret)
      || (&& !Php.Empty(r.appId) && !Php.Empty(r.secret)
          && r.appId in {appId, config.appid} && r.secret in {secret, config.secret})
    ensures (Php.Empty(appId) && Php.Empty(config.appid)) || (Php.Empty(secret) && Php.Empty(config.secret)) ==>
      r == AppCredentials(config.globalAppid, config.globalSecret)
    ensures (!Php.Empty(appId) || !Php.Empty(config.appid)) && (!Php.Empty(secret) || !Php.Empty(config.secret)) ==>
      && r.appId == (if Php.Empty(appId) then config.appid else appId)
      && r.secret == (if Php.Empty(secret) then config.secret else secret)
  {
    var id := if Php.Empty(appId) then config.appid else appId;
    var key := if Php.Empty(secret) then config.secret else secret;
    if Php.Empty(id) || Php.Empty(key) then AppCredentials(config.globalAppid, config.globalSecret)
    else AppCredentials(id, key)
  }
}
