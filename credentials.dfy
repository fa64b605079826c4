/** The credentials manager: a list of stored logins (SSH, database, API,
    FTP, web) that can be created from a form, deleted, shown or hidden
    one by one, and exported with every password replaced by a marker. */
module Credentials {
  import opened Common
  import opened SecretVisibility

  datatype CredentialType = Ssh | Database | Api | Ftp | Web

  /** The port of a credential: absent, a number, or the not-a-number value
      that parsing text without leading digits gives. */
  datatype Port = NoPort | PortNumber(n: int) | PortNaN

  datatype Credential = Credential(
    id: string,
    name: string,
    kind: CredentialType,
    username: string,
    password: Option<string>,
    host: Option<string>,
    port: Port,
    description: Option<string>,
    created: string,
    lastUsed: Option<string>)

  /** The create form; every field is text. */
  datatype Form = Form(
    name: string,
    kind: CredentialType,
    username: string,
    password: string,
    host: string,
    port: string,
    description: string)

  const EmptyForm := Form("", Ssh, "", "", "", "", "")

  /** The marker written in place of every password on export. */
  const Redacted := "***REDACTED***"

  function InitialCredentials(): (r: seq<Credential>)
    ensures |r| == 4
    ensures forall i :: 0 <= i < |r| ==> r[i].password.Some?
  {
    [Credential("1", "Main SSH Access", Ssh, "admin", Some("SecurePassword123!"), Some("192.168.1.100"),
                PortNumber(22), Some("Primary SSH access to web server"), "2024-01-15", Some("2024-01-16 17:30")),
     Credential("2", "Database Connection", Database, "dbadmin", Some("DbPass456#"), Some("192.168.1.101"),
                PortNumber(3306), Some("MySQL database access"), "2024-01-14", Some("2024-01-16 16:45")),
     Credential("3", "API Service Key", Api, "api_user", Some("sk-1234567890abcdef"), None,
                NoPort, Some("External API service authentication"), "2024-01-10", Some("2024-01-16 14:20")),
     Credential("4", "FTP Upload Access", Ftp, "ftpuser", Some("FtpSecure789$"), Some("192.168.1.102"),
                PortNumber(21), Some("FTP server for file uploads"), "2024-01-12", None)]
  }

  /** An optional text field: empty text means absent. */
  function OptionalText(s: string): (r: Option<string>)
    ensures r.None? <==> s == ""
    ensures r.Some? ==> r.value == s
  {
    if s == "" then None else Some(s)
  }

  /** The port typed into the form: empty means absent, otherwise `parseInt`. */
  function PortOf(text: string): (r: Port)
    ensures r.NoPort? <==> text == ""
    ensures r.PortNaN? <==> text != "" && ParseInt(text).None?
    ensures r.PortNumber? ==> r.n == ParseInt(text).value
  {
    if text == "" then NoPort
    else match ParseInt(text)
      case Some(n) => PortNumber(n)
      case None => PortNaN
  }

  /** A port typed as decimal digits is stored as that number. */
  lemma DecimalPortIsKept(n: nat)
    ensures PortOf(NatToString(n)) == PortNumber(n)
  {
    ParseIntNatToString(n);
  }

  /** The port is what `parseInt` reads: leading white space and a sign are
      accepted, anything after the digits is dropped, and text that does not
      start with a number is stored as `NaN`. */
  lemma PortIsParsedLeniently()
    ensures PortOf(" 22") == PortNumber(22)
    ensures PortOf("22abc") == PortNumber(22)
    ensures PortOf("-1") == PortNumber(-1)
    ensures PortOf("ssh") == PortNaN
  {
    assert DigitsValue("22") == 22 by {
      assert "22"[..1] == "2" && "2"[..0] == "";
    }
    assert DigitsValue("1") == 1 by { assert "1"[..0] == ""; }
    ParseIntReadsPrefix(" ", "", "22", "");
    assert " " + "" + "22" + "" == " 22";
    ParseIntReadsPrefix("", "", "22", "abc");
    assert "" + "" + "22" + "abc" == "22abc";
    ParseIntReadsPrefix("", "-", "1", "");
    assert "" + "-" + "1" + "" == "-1";
    ParseIntWithoutDigits("", "", "ssh");
    assert "" + "" + "ssh" == "ssh";
  }

  /** The credential a valid form produces: the name and username are
      required (as typed, so white space counts), the id is the current
      time in milliseconds and the creation date today's date; optional
      fields left empty are absent, except the password, which is kept
      even when empty. */
  function NewCredential(f: Form, nowMs: nat, today: string): (r: Option<Credential>)
    ensures r.None? <==> f.name == "" || f.username == ""
    ensures r.Some? ==>
      r.value.id == NatToString(nowMs) && r.value.name == f.name && r.value.kind == f.kind
      && r.value.username == f.username && r.value.password == Some(f.password)
      && r.value.host == OptionalText(f.host) && r.value.port == PortOf(f.port)
      && r.value.description == OptionalText(f.description)
      && r.value.created == today && r.value.lastUsed.None?
  {
    if f.name == "" || f.username == "" then None
    else Some(Credential(NatToString(nowMs), f.name, f.kind, f.username, Some(f.password),
                         OptionalText(f.host), PortOf(f.port), OptionalText(f.description), today, None))
  }

  /** The list without the credentials of id `id`. */
  function Remove(creds: seq<Credential>, id: string): (r: seq<Credential>)
    ensures IsSubseq(r, creds)
    ensures forall i :: 0 <= i < |r| ==> r[i].id != id
    ensures forall i :: 0 <= i < |creds| && creds[i].id != id ==> creds[i] in r && multiset(r)[creds[i]] == multiset(creds)[creds[i]]
    ensures multiset(r) <= multiset(creds)
  {
    var keep := (c: Credential) => c.id != id;
    FilterIsSubseq(creds, keep);
    Filter(creds, keep)
  }

  /** The exported list: every credential, in order, with its password
      replaced by the marker (also where it had none). */
  function Export(creds: seq<Credential>): (r: seq<Credential>)
    ensures |r| == |creds|
    ensures forall i :: 0 <= i < |creds| ==> r[i] == creds[i].(password := Some(Redacted))
  {
    seq(|creds|, i requires 0 <= i < |creds| => creds[i].(password := Some(Redacted)))
  }

  /** No stored password other than the marker itself appears in the
      export, and exporting an export changes nothing. */
  lemma ExportRevealsNoPassword(creds: seq<Credential>)
    ensures forall i, j ::
      (0 <= i < |creds| && 0 <= j < |creds| && creds[j].password.Some? && creds[j].password.value != Redacted)
      ==> Export(creds)[i].password != creds[j].password
    ensures Export(Export(creds)) == Export(creds)
  {
  }

  /** The password row of a credential is displayed (a non-empty password). */
  predicate PasswordRowShown(c: Credential)
  {
    c.password.Some? && c.password.value != ""
  }

  /** A credential created with an empty password has no password row,
      yet its export still carries the marker. */
  lemma EmptyPasswordHasNoRow(f: Form, nowMs: nat, today: string)
    requires f.name != "" && f.username != "" && f.password == ""
    ensures !PasswordRowShown(NewCredential(f, nowMs, today).value)
    ensures Export([NewCredential(f, nowMs, today).value])[0].password == Some(Redacted)
  {
  }

  /** The credentials page. */
  class CredentialsPage {
    var credentials: seq<Credential>
    var shown: map<string, bool>
    var isCreating: bool
    var form: Form

    constructor ()
      ensures credentials == InitialCredentials() && shown == map[] && !isCreating && form == EmptyForm
    {
      credentials := InitialCredentials();
      shown := map[];
      isCreating := false;
      form := EmptyForm;
    }

    method EditForm(f: Form)
      modifies this
      ensures form == f
      ensures credentials == old(credentials) && shown == old(shown) && isCreating == old(isCreating)
    {
      form := f;
    }

    /** Create from the form. A rejected form changes nothing; an accepted
        one puts the new credential first, empties the form and closes it. */
    method Create(nowMs: nat, today: string) returns (ok: bool)
      modifies this
      ensures ok <==> NewCredential(old(form), nowMs, today).Some?
      ensures !ok ==> credentials == old(credentials) && form == old(form) && isCreating == old(isCreating)
      ensures ok ==>
        (credentials == [NewCredential(old(form), nowMs, today).value] + old(credentials)
         && form == EmptyForm && !isCreating)
      ensures shown == old(shown)
    {
      var c := NewCredential(form, nowMs, today);
      if c.None? {
        return false;
      }
      credentials := [c.value] + credentials;
      form := EmptyForm;
      isCreating := false;
      ok := true;
    }

    method Delete(id: string)
      modifies this
      ensures credentials == Remove(old(credentials), id)
      ensures shown == old(shown) && isCreating == old(isCreating) && form == old(form)
    {
      credentials := Remove(credentials, id);
    }

    method TogglePassword(id: string)
      modifies this
      ensures shown == ToggleShown(old(shown), id)
      ensures credentials == old(credentials) && isCreating == old(isCreating) && form == old(form)
    {
      shown := ToggleShown(shown, id);
    }

    method SetCreating(open: bool)
      modifies this
      ensures isCreating == open
      ensures credentials == old(credentials) && shown == old(shown) && form == old(form)
    {
      isCreating := open;
    }
  }
}
