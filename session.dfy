/** The session wrapper of the sample's web-service infrastructure: it opens a
    session on construction, can cancel everything the session runs, and is
    disposed when the `using` block that owns it ends. */
module Infrastructure {
  import opened WebService

  /** The client configuration; only the shared password matters here. */
  datatype WebConfig = WebConfig(password: string)

  /** Decryption of the session id: (shared password, encrypted session id,
      salt) to plain session id. The cryptography helper itself is not part
      of this model, so the session receives it as a function. */
  type SessionIdDecryptor = (string, string, string) -> string

  class Session {
    var client: Balance?   // the session service client
    var disposed: bool
    const sessionId: string  // set by the constructor; the only other write is in dead code

    ghost predicate Valid()
      reads this
    {
      client != null
    }

    /** Opens the session: one OpenSession request, then the session id is
        the decryption of the reply under the configured password. */
    constructor (config: WebConfig, balance: Balance, decrypt: SessionIdDecryptor)
      modifies balance
      ensures Valid() && client == balance && !disposed
      ensures balance.trace == old(balance.trace) + [Request.OpenSession]
      ensures balance.polls == old(balance.polls)
      ensures sessionId == decrypt(config.password, balance.script.openSession.encryptedSessionId,
                                   balance.script.openSession.salt)
    {
      var reply := balance.OpenSession();
      sessionId := decrypt(config.password, reply.encryptedSessionId, reply.salt);
      client := balance;
      disposed := false;
    }

    /** One Cancel request for everything running in this session; the
        session's own state does not change. */
    method CancelAll()
      requires Valid()
      modifies client
      ensures client.trace == old(client.trace) + [Request.Cancel(sessionId, All)]
      ensures client.polls == old(client.polls)
    {
      client.Cancel(sessionId, All);
    }

    /** As written, the inner test repeats the outer one after the flag has
        been set, so the cancel, the close request and the reset of the
        session id and client can never run: the first call only sets the
        flag, later calls do nothing, and no request is ever sent. */
    method Dispose()
      requires Valid()
      modifies this
      ensures Valid() && disposed
      ensures client == old(client)
      ensures client.trace == old(client.trace) && client.polls == old(client.polls)
      ensures old(disposed) ==> unchanged(this)
    {
      if !disposed {
        disposed := true;
        if !disposed {
          // CancelAll, CloseSession(sessionId), and clearing sessionId and
          // client would go here; the flag was set just above. This is the
          // only write to the session id after construction, which is why
          // it is a const here.
          assert false;
        }
      }
    }
  }
}
