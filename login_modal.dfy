/** The single-administrator bootstrap of components/LoginModal.tsx: register once with the
    installation key when no credential is stored, log in against the stored pair afterwards. */
module Login {
  import opened Types

  /** The fixed key that authorises the one-time registration. */
  const INSTALLATION_KEY: string := "MR-ADMIN-2025"

  /** The durable record 'mr_master_creds'. */
  datatype Credential = Credential(user: string, pass: string)

  /** What one press of the dialog's submit button did. */
  datatype Outcome =
    | Registered     // credential stored, dialog switched to login
    | LoggedIn       // `onLogin` called
    | MissingFields  // registration with an empty user, password or key
    | WrongKey       // registration with a key other than INSTALLATION_KEY
    | AccessDenied   // login with a pair other than the stored one
    | NoAdminFound   // login with no stored credential (the page is reloaded)

  class LoginModal {
    var isRegistering: bool
    var adminExists: bool
    var user: string
    var pass: string
    var securityKey: string
    /** The stored credential, read at mount and written by registration. */
    var saved: Option<Credential>

    /** `adminExists` tells whether a credential is stored, and register mode is reachable only
        while none is: the mount effect enters it only without a credential, and the "first access"
        button only while no administrator exists. */
    ghost predicate Valid()
      reads this
    {
      && (adminExists <==> saved.Some?)
      && (isRegistering ==> saved.None?)
    }

    /** Mounting the dialog: register mode exactly when no credential is stored. */
    constructor (stored: Option<Credential>)
      ensures Valid()
      ensures saved == stored
      ensures isRegistering <==> stored.None?
      ensures adminExists <==> stored.Some?
      ensures user == "" && pass == "" && securityKey == ""
    {
      saved := stored;
      adminExists := stored.Some?;
      isRegistering := stored.None?;
      user, pass, securityKey := "", "", "";
    }

    /** The "first access" button is shown only while no administrator exists and the dialog is in login mode. */
    predicate FirstAccessOffered()
      reads this
      ensures FirstAccessOffered() ==> !adminExists
    {
      !adminExists && !isRegistering
    }

    /** Pressing "first access": switch to register mode. */
    method StartFirstAccess()
      requires Valid() && FirstAccessOffered()
      modifies this`isRegistering
      ensures Valid() && isRegistering
    {
      isRegistering := true;
    }

    method SetUser(v: string)
      modifies this`user
      ensures user == v
    {
      user := v;
    }

    method SetPass(v: string)
      modifies this`pass
      ensures pass == v
    {
      pass := v;
    }

    method SetSecurityKey(v: string)
      modifies this`securityKey
      ensures securityKey == v
    {
      securityKey := v;
    }

    /** `handleAction`. In register mode: all three fields must be non-empty, then the key must be
        INSTALLATION_KEY; only then is `{user, pass}` stored, the dialog switches to login mode and the
        fields are cleared. In login mode: succeed exactly on the stored pair; on a wrong pair clear
        only the password. */
    method HandleAction() returns (outcome: Outcome)
      requires Valid()
      modifies this
      ensures Valid()
      ensures outcome == Registered <==>
                old(isRegistering) && old(user) != "" && old(pass) != "" && old(securityKey) == INSTALLATION_KEY
      ensures outcome == LoggedIn <==> !old(isRegistering) && old(saved) == Some(Credential(old(user), old(pass)))
      ensures outcome == MissingFields <==> old(isRegistering) && (old(user) == "" || old(pass) == "" || old(securityKey) == "")
      ensures outcome == WrongKey <==>
                old(isRegistering) && old(user) != "" && old(pass) != "" && old(securityKey) != ""
                && old(securityKey) != INSTALLATION_KEY
      ensures outcome == AccessDenied <==>
                !old(isRegistering) && old(saved).Some? && old(saved) != Some(Credential(old(user), old(pass)))
      ensures outcome == NoAdminFound <==> !old(isRegistering) && old(saved).None?
      ensures outcome == Registered ==>
                saved == Some(Credential(old(user), old(pass))) && adminExists && !isRegistering
                && user == "" && pass == "" && securityKey == ""
      ensures outcome == AccessDenied ==>
                pass == "" && user == old(user) && securityKey == old(securityKey)
                && saved == old(saved) && isRegistering == old(isRegistering) && adminExists == old(adminExists)
      ensures outcome != Registered && outcome != AccessDenied ==> unchanged(this)
      ensures old(saved).Some? ==> saved == old(saved)
      ensures old(saved).Some? ==> outcome == LoggedIn || outcome == AccessDenied
    {
      if isRegistering {
        if user == "" || pass == "" || securityKey == "" {
          return MissingFields;
        }
        if securityKey != INSTALLATION_KEY {
          return WrongKey;
        }
        saved := Some(Credential(user, pass));
        adminExists := true;
        isRegistering := false;
        user, pass, securityKey := "", "", "";
        return Registered;
      } else {
        if saved.None? {
          return NoAdminFound;
        }
        if user == saved.value.user && pass == saved.value.pass {
          return LoggedIn;
        }
        pass := "";
        return AccessDenied;
      }
    }
  }

  /** The bootstrap end to end: on a fresh installation, registering with the key and then logging in
      with the same pair succeeds, while a different password is refused and the dialog stays in login
      mode with no way back to registration. */
  method RegisterThenLogin(u: string, p: string, wrong: string)
    returns (registered: Outcome, accepted: Outcome, refused: Outcome, reRegister: bool)
    requires u != "" && p != "" && wrong != p
    ensures registered == Registered && accepted == LoggedIn && refused == AccessDenied && !reRegister
  {
    var m := new LoginModal(None);
    m.SetUser(u);
    m.SetPass(p);
    m.SetSecurityKey(INSTALLATION_KEY);
    registered := m.HandleAction();
    m.SetUser(u);
    m.SetPass(wrong);
    refused := m.HandleAction();
    m.SetPass(p);
    accepted := m.HandleAction();
    reRegister := m.FirstAccessOffered();
  }

  /** A wrong installation key leaves the installation without an administrator, still in register mode. */
  method WrongKeyKeepsNoAdmin(u: string, p: string, key: string)
    returns (outcome: Outcome, stored: Option<Credential>, registering: bool)
    requires key != INSTALLATION_KEY
    ensures outcome == (if u == "" || p == "" || key == "" then MissingFields else WrongKey)
    ensures stored == None && registering
  {
    var m := new LoginModal(None);
    m.SetUser(u);
    m.SetPass(p);
    m.SetSecurityKey(key);
    outcome := m.HandleAction();
    stored := m.saved;
    registering := m.isRegistering;
  }
}
