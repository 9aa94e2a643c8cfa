/** The profile form's input handling: `ModernProfileForm.on_save` reads a name and a
    proxy string `IP:PORT:USERNAME:PASSWORD` (or `IP:PORT`), and `_populate_fields`
    writes a stored proxy back into that one-string form. */
module ProxyForm {
  import opened Strings
  import opened ProfileStore
  import opened ProfileRegistry

  /** The three input errors `on_save` reports in a message box. */
  datatype FormError = NameRequired | ProxyRequired | InvalidFormat

  datatype Result<T> = Ok(value: T) | Err(error: FormError)

  /** What a successful save hands to the registry. */
  datatype FormInput = FormInput(name: string, proxy: Proxy)

  /** Whether the form was opened to add a profile (with the fresh id `create_profile`
      will draw) or to edit the profile with the given fingerprint. */
  datatype FormMode = AddMode(newFingerprint: string) | EditMode(fingerprint: string)

  /** The number of colons in `s`. */
  function Colons(s: string): nat
  {
    if s == [] then 0 else (if s[0] == ':' then 1 else 0) + Colons(s[1..])
  }

  /** A string with k colons splits into k + 1 parts. */
  lemma {:induction false} SplitLength(s: string)
    ensures |Split(s)| == Colons(s) + 1
  {
    if s != [] {
      SplitLength(s[1..]);
    }
  }

  /** The `try` block of `on_save`: split on ':'; four or more parts give address, port,
      user and the rest rejoined as the password; two parts give address and port with
      no credentials; any other count is an invalid format. */
  function ParseProxy(s: string): Result<Proxy>
  {
    var parts := Split(s);
    if |parts| >= 4 then Ok(Proxy(parts[0], parts[1], parts[2], Join(parts[3..])))
    else if |parts| == 2 then Ok(Proxy(parts[0], parts[1], "", ""))
    else Err(InvalidFormat)
  }

  /** `_populate_fields`: the proxy as the edit form shows it. */
  function FormatProxy(p: Proxy): string
  {
    p.ip + ":" + p.port + ":" + p.username + ":" + p.password
  }

  /** The input checks of `on_save`: both fields are stripped, the name is checked
      first, then the proxy string, then its format. */
  function ReadForm(nameRaw: string, proxyRaw: string): (r: Result<FormInput>)
    ensures r == Err(NameRequired) <==> Strip(nameRaw) == []
    ensures r == Err(ProxyRequired) <==> Strip(nameRaw) != [] && Strip(proxyRaw) == []
    ensures r == Err(InvalidFormat) <==>
      Strip(nameRaw) != [] && Strip(proxyRaw) != [] && ParseProxy(Strip(proxyRaw)).Err?
    ensures r.Ok? ==> r.value.name == Strip(nameRaw) && r.value.name != []
    ensures r.Ok? ==> ParseProxy(Strip(proxyRaw)) == Ok(r.value.proxy)
  {
    var name := Strip(nameRaw);
    var proxyStr := Strip(proxyRaw);
    if name == [] then Err(NameRequired)
    else if proxyStr == [] then Err(ProxyRequired)
    else
      var parsed := ParseProxy(proxyStr);
      if parsed.Ok? then Ok(FormInput(name, parsed.value)) else Err(InvalidFormat)
  }

  /** `on_save` as a whole: on valid input the registry creates or edits the profile;
      on invalid input the registry is not touched and the error is reported. */
  function SaveForm(t: Table, mode: FormMode, nameRaw: string, proxyRaw: string): (r: Result<Table>)
    ensures r.Err? <==> ReadForm(nameRaw, proxyRaw).Err?
    ensures r.Err? ==> r.error == ReadForm(nameRaw, proxyRaw).error
    ensures r.Ok? ==> ReadForm(nameRaw, proxyRaw).Ok?
    ensures r.Ok? && mode.AddMode? ==>
      var input := ReadForm(nameRaw, proxyRaw).value;
      r.value == Create(t, mode.newFingerprint, input.name, input.proxy)
    ensures r.Ok? && mode.EditMode? ==>
      var input := ReadForm(nameRaw, proxyRaw).value;
      r.value == Edit(t, mode.fingerprint, input.name, input.proxy)
  {
    match ReadForm(nameRaw, proxyRaw)
    case Err(e) => Err(e)
    case Ok(input) =>
      match mode
      case AddMode(id) => Ok(Create(t, id, input.name, input.proxy))
      case EditMode(id) => Ok(Edit(t, id, input.name, input.proxy))
  }

  /** Saving the add form with valid input and a fresh id adds exactly one inactive
      profile, with the stripped name and the parsed proxy, listed after all the others. */
  lemma AddFormCreates(t: Table, id: string, nameRaw: string, proxyRaw: string)
    requires WellFormed(t) && id !in t.entries
    requires ReadForm(nameRaw, proxyRaw).Ok?
    ensures var r := SaveForm(t, AddMode(id), nameRaw, proxyRaw);
      && r.Ok? && WellFormed(r.value)
      && id in r.value.entries
      && r.value.entries[id] == Profile(id, Strip(nameRaw), ReadForm(nameRaw, proxyRaw).value.proxy, false)
      && ParseProxy(Strip(proxyRaw)) == Ok(r.value.entries[id].proxy)
      && Values(r.value) == Values(t) + [r.value.entries[id]]
      && (forall k :: k in t.entries ==> k in r.value.entries && r.value.entries[k] == t.entries[k])
  {
    var input := ReadForm(nameRaw, proxyRaw).value;
    CreateSpec(t, id, input.name, input.proxy);
  }

  /** A proxy string is accepted exactly when it holds one colon or three or more. */
  lemma ParseProxyAccepts(s: string)
    ensures ParseProxy(s).Ok? <==> Colons(s) == 1 || Colons(s) >= 3
    ensures ParseProxy(s).Err? ==> ParseProxy(s).error == InvalidFormat
  {
    SplitLength(s);
  }

  /** Parsing then formatting gives the input back: the whole string when it carries
      credentials, the string followed by two empty fields when it is `IP:PORT`. The
      address, port and user never contain a colon; any further colon belongs to the
      password. */
  lemma ParseThenFormat(s: string)
    requires ParseProxy(s).Ok?
    ensures var p := ParseProxy(s).value;
      && ':' !in p.ip && ':' !in p.port && ':' !in p.username
      && (Colons(s) >= 3 ==> FormatProxy(p) == s)
      && (Colons(s) == 1 ==> p.username == "" && p.password == "" && FormatProxy(p) == s + "::")
  {
    var parts := Split(s);
    var p := ParseProxy(s).value;
    SplitLength(s);
    JoinSplit(s);
    if |parts| >= 4 {
      assert parts[1..][1..] == parts[2..];
      assert parts[2..][1..] == parts[3..];
      assert Join(parts[2..]) == parts[2] + ":" + Join(parts[3..]);
      assert Join(parts[1..]) == parts[1] + ":" + Join(parts[2..]);
      assert Join(parts) == parts[0] + ":" + Join(parts[1..]);
    } else {
      assert Join(parts) == parts[0] + ":" + parts[1];
    }
  }

  /** The edit form's string parses back to the stored proxy whenever address, port and
      user contain no colon and the string has no surrounding whitespace. */
  lemma FormatThenParse(p: Proxy)
    requires ':' !in p.ip && ':' !in p.port && ':' !in p.username
    requires p.ip == "" || !IsSpace(p.ip[0])
    requires p.password == "" || !IsSpace(p.password[|p.password| - 1])
    ensures Trimmed(FormatProxy(p))
    ensures ParseProxy(FormatProxy(p)) == Ok(p)
  {
    var head := [p.ip, p.port, p.username];
    var s := FormatProxy(p);
    assert head[1..] == [p.port, p.username];
    assert head[1..][1..] == [p.username];
    assert Join(head[1..]) == p.port + ":" + p.username;
    assert Join(head) == p.ip + ":" + p.port + ":" + p.username;
    assert s == Join(head) + ":" + p.password;
    SplitJoin(head);
    SplitAppend(Join(head), p.password);
    JoinSplit(p.password);
    var parts := Split(s);
    assert parts == head + Split(p.password);
    assert parts[3..] == Split(p.password);
    if p.ip == "" { assert s[0] == ':'; } else { assert s[0] == p.ip[0]; }
    if p.password == "" {
      assert s[|s| - 1] == ':';
    } else {
      assert s[|s| - 1] == p.password[|p.password| - 1];
    }
  }

  /** Opening the edit form on a stored profile and saving it unchanged leaves the
      registry exactly as it was, whenever the name and proxy survive stripping and
      splitting. */
  lemma EditFormUnchanged(t: Table, fingerprint: string)
    requires WellFormed(t) && fingerprint in t.entries
    requires t.entries[fingerprint].fingerprint == fingerprint
    requires var q := t.entries[fingerprint];
      && q.name != [] && Trimmed(q.name)
      && ':' !in q.proxy.ip && ':' !in q.proxy.port && ':' !in q.proxy.username
      && (q.proxy.ip == "" || !IsSpace(q.proxy.ip[0]))
      && (q.proxy.password == "" || !IsSpace(q.proxy.password[|q.proxy.password| - 1]))
    ensures var q := t.entries[fingerprint];
      SaveForm(t, EditMode(fingerprint), q.name, FormatProxy(q.proxy)) == Ok(t)
  {
    var q := t.entries[fingerprint];
    FormatThenParse(q.proxy);
    StripTrimmed(q.name);
    StripTrimmed(FormatProxy(q.proxy));
    assert FormatProxy(q.proxy) != [];
    var r := Edit(t, fingerprint, q.name, q.proxy);
    assert r.entries == t.entries;
  }
}
