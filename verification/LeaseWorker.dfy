/** The secret lease service and its endpoints as they run. */
module LeaseWorker {
  import opened Basics
  import opened Schema
  import opened Governance
  import opened Leases

  class SecretLeaseService {
    const config: Config
    const broker: Broker

    constructor (config: Config, broker: Broker)
      ensures this.config == config && this.broker == broker
    {
      this.config := config;
      this.broker := broker;
    }

    /** Adds a lease row once the profile allows the secret and the broker can resolve it. */
    method IssueLease(session: Session, lab: Id, secret: string, ttlMinutes: int, lease: Id, now: Time)
      returns (error: Option<Error>)
      modifies session`leases
      ensures error == Issue(config, broker, old(session.Rows()), lab, secret, ttlMinutes, lease, now).error
      ensures session.leases
           == Issue(config, broker, old(session.Rows()), lab, secret, ttlMinutes, lease, now).rows.leases
    {
      if ttlMinutes < 1 {
        return Some(TtlTooShort);
      }
      if lab !in session.labs {
        return Some(LabMissing);
      }
      var profile := session.labs[lab].profile;
      if profile !in config.profiles {
        return Some(ProfileMissing);
      }
      if secret !in config.profiles[profile].allowedSecrets {
        return Some(SecretNotAllowed);
      }
      if secret !in broker {
        return Some(SecretMissing);
      }
      if lease in session.leases {
        return Some(IntegrityError);
      }
      session.leases := session.leases[lease := Lease(lab, secret, true, now + ttlMinutes * 60, None, now)];
      return None;
    }

    method PostLease(session: Session, lab: Id, secret: string, ttlMinutes: int, lease: Id, now: Time)
      returns (error: Option<Error>)
      requires session.Clean()
      modifies session
      ensures session.Clean()
      ensures Outcome(session.Rows(), error)
           == Issue(config, broker, old(session.Rows()), lab, secret, ttlMinutes, lease, now)
    {
      error := IssueLease(session, lab, secret, ttlMinutes, lease, now);
      if error.Some? {
        session.Rollback();
        return;
      }
      session.Write(LeaseIssued, lease, Some(lab), Plain);
      session.Commit();
    }

    method RevokeLease(session: Session, lease: Id, now: Time) returns (error: Option<Error>)
      modifies session`leases
      ensures error == Revoke(old(session.Rows()), lease, now).error
      ensures session.leases == Revoke(old(session.Rows()), lease, now).rows.leases
    {
      if lease !in session.leases {
        return Some(LeaseMissing);
      }
      var row := session.leases[lease];
      if row.revokedAt.Some? {
        return Some(LeaseAlreadyRevoked);
      }
      session.leases := session.leases[lease := row.(revokedAt := Some(now))];
      return None;
    }

    method PostRevocation(session: Session, lease: Id, now: Time) returns (error: Option<Error>)
      requires session.Clean()
      modifies session
      ensures session.Clean()
      ensures Outcome(session.Rows(), error) == Revoke(old(session.Rows()), lease, now)
    {
      error := RevokeLease(session, lease, now);
      if error.Some? {
        session.Rollback();
        return;
      }
      session.Write(LeaseRevoked, lease, Some(session.leases[lease].lab), Plain);
      session.Commit();
    }
  }
}
