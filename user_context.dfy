/**
 * The CultureFeed user context: the durable binding of the session to an
 * external identity (user id, access token, access token secret). The
 * authentication controller writes it; the current-user service reads it.
 */
module UserContext {
  import opened Wrappers

  class UserContextManager {
    var userId: Option<string>
    var accessToken: Option<string>
    var accessSecret: Option<string>

    /** A fresh session has no binding. */
    constructor ()
      ensures userId == None && accessToken == None && accessSecret == None
    {
      userId, accessToken, accessSecret := None, None, None;
    }

    method SetUserAccessSecret(secret: string)
      modifies this
      ensures accessSecret == Some(secret)
      ensures userId == old(userId) && accessToken == old(accessToken)
    {
      accessSecret := Some(secret);
    }

    method SetUserAccessToken(token: string)
      modifies this
      ensures accessToken == Some(token)
      ensures userId == old(userId) && accessSecret == old(accessSecret)
    {
      accessToken := Some(token);
    }

    method SetUserId(id: string)
      modifies this
      ensures userId == Some(id)
      ensures accessToken == old(accessToken) && accessSecret == old(accessSecret)
    {
      userId := Some(id);
    }
  }
}
