/**
 * The caller identity that the request headers yield. The header parser itself
 * is not part of this model: handlers take its result as an `Option<Identity>`.
 */
module Identities {
  import opened Json

  datatype Identity = Identity(userId: string, userName: string, identityProvider: string)

  /** The caller's identity as it is stored in a chat record. */
  function InfoJson(i: Identity): Value {
    JObj(map["userId" := JStr(i.userId), "userName" := JStr(i.userName),
             "identityProvider" := JStr(i.identityProvider)])
  }
}
