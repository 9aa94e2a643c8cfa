/** The browser launcher's pure decisions: `create_proxy_extension`'s guard and the
    background script it packages, and the proxy-injection strategy and browser options
    chosen in `launch_browser_for_profile`. */
module Launcher {
  import opened Strings
  import opened ProfileStore

  /** How a launch routes traffic through the profile's proxy. */
  datatype Strategy =
    | Extension(ip: string, port: string, username: string, password: string)
    | ProxyArg(address: string)
    | NoProxy

  /** The browser options a launch sets: command-line arguments and packed extensions. */
  datatype ChromeOptions = ChromeOptions(arguments: seq<string>, extensions: seq<string>)

  // The background script of the extension, cut around the four values it embeds.
  const ScriptStart: string :=
    "\n    var config = {\n        mode: \"fixed_servers\",\n        rules: {\n            singleProxy: {\n"
    + "                scheme: \"http\",\n                "
  const ScriptAfterHost: string := ",\n                port: "
  const ScriptAfterPort: string :=
    "\n            },\n            bypassList: [\"localhost\"]\n        }\n    };\n"
    + "    chrome.proxy.settings.set({value: config, scope: \"regular\"}, function(){});\n"
    + "    function callbackFn(details) {\n        return {\n            authCredentials: {\n                "
  const ScriptAfterUser: string := ",\n                "
  const ScriptEnd: string :=
    "\n            }\n        };\n    }\n    chrome.webRequest.onAuthRequired.addListener(\n"
    + "        callbackFn,\n        {urls: [\"<all_urls>\"]},\n        ['blocking']\n    );\n    "

  function HostField(ip: string): string { "host: \"" + ip + "\"" }
  function PortField(port: string): string { "parseInt(\"" + port + "\")" }
  function UserField(user: string): string { "username: \"" + user + "\"" }
  function PasswordField(pass: string): string { "password: \"" + pass + "\"" }

  /** `background.js`: pins a fixed HTTP proxy at the profile's address and port, exempts
      localhost, and answers every authentication challenge with its credentials. */
  function BackgroundScript(proxy: Proxy): string
  {
    ScriptStart + HostField(proxy.ip) + ScriptAfterHost + PortField(proxy.port)
    + ScriptAfterPort + UserField(proxy.username) + ScriptAfterUser
    + PasswordField(proxy.password) + ScriptEnd
  }

  /** `create_proxy_extension`, returning the script it packages in place of the path of
      the package: None when the address or the port is empty. */
  function CreateProxyExtension(proxy: Proxy): Option<string>
  {
    if proxy.ip == "" || proxy.port == "" then None else Some(BackgroundScript(proxy))
  }

  /** The strategy branch of `launch_browser_for_profile`: credentials select the
      extension (which is only loaded when the builder produced one), otherwise an address
      and port select the plain `--proxy-server` argument, otherwise nothing. */
  function SelectStrategy(proxy: Proxy): Strategy
  {
    if proxy.username != "" && proxy.password != "" then
      if CreateProxyExtension(proxy).Some? then
        Extension(proxy.ip, proxy.port, proxy.username, proxy.password)
      else NoProxy
    else if proxy.ip != "" && proxy.port != "" then
      ProxyArg(proxy.ip + ":" + proxy.port)
    else NoProxy
  }

  /** The profile's own session directory, `<cwd>/chrome_profiles/<fingerprint>`. */
  function UserDataDir(cwd: string, fingerprint: string): string
  {
    cwd + "/chrome_profiles/" + fingerprint
  }

  /** The single, fixed path every launch packs its extension to. */
  function ExtensionPath(cwd: string): string
  {
    cwd + "/proxy_auth_extension.crx"
  }

  /** The options `launch_browser_for_profile` gives the browser for one profile. */
  function BrowserOptions(profile: Profile, cwd: string): ChromeOptions
  {
    var base := ChromeOptions(["--user-data-dir=" + UserDataDir(cwd, profile.fingerprint)], []);
    match SelectStrategy(profile.proxy)
    case Extension(_, _, _, _) => base.(extensions := [ExtensionPath(cwd)])
    case ProxyArg(address) => base.(arguments := base.arguments + ["--proxy-server=" + address])
    case NoProxy => base
  }

  /** The builder produces a package exactly when address and port are both present. */
  lemma ExtensionGuard(proxy: Proxy)
    ensures CreateProxyExtension(proxy).None? <==> proxy.ip == "" || proxy.port == ""
  {
  }

  /** Each value placed between fixed text segments occurs in the assembled text. */
  lemma EmbedsSegments(a: string, h: string, b: string, p: string, c: string,
                       u: string, d: string, w: string, e: string)
    ensures var all := a + h + b + p + c + u + d + w + e;
      Contains(all, h) && Contains(all, p) && Contains(all, u) && Contains(all, w)
  {
    var all := a + h + b + p + c + u + d + w + e;
    ContainsInfix(a, h, b + p + c + u + d + w + e);
    assert all == a + h + (b + p + c + u + d + w + e);
    ContainsInfix(a + h + b, p, c + u + d + w + e);
    assert all == (a + h + b) + p + (c + u + d + w + e);
    ContainsInfix(a + h + b + p + c, u, d + w + e);
    assert all == (a + h + b + p + c) + u + (d + w + e);
    ContainsInfix(a + h + b + p + c + u + d, w, e);
  }

  /** The generated script names the profile's address, port, user and password. */
  lemma ScriptEmbedsProxy(proxy: Proxy)
    ensures var script := BackgroundScript(proxy);
      && Contains(script, HostField(proxy.ip))
      && Contains(script, PortField(proxy.port))
      && Contains(script, UserField(proxy.username))
      && Contains(script, PasswordField(proxy.password))
  {
    EmbedsSegments(ScriptStart, HostField(proxy.ip), ScriptAfterHost, PortField(proxy.port),
                   ScriptAfterPort, UserField(proxy.username), ScriptAfterUser,
                   PasswordField(proxy.password), ScriptEnd);
  }

  /** The three strategies, each with the exact condition that selects it: credentials
      without an address or port set no proxy at all. */
  lemma StrategyCases(proxy: Proxy)
    ensures var s := SelectStrategy(proxy);
      && (s.Extension? <==>
            proxy.username != "" && proxy.password != "" && proxy.ip != "" && proxy.port != "")
      && (s.ProxyArg? <==>
            (proxy.username == "" || proxy.password == "") && proxy.ip != "" && proxy.port != "")
      && (s.NoProxy? <==> proxy.ip == "" || proxy.port == "")
      && (s.Extension? ==> s == Extension(proxy.ip, proxy.port, proxy.username, proxy.password))
      && (s.ProxyArg? ==> s.address == proxy.ip + ":" + proxy.port)
  {
    ExtensionGuard(proxy);
  }

  /** The script the builder produces for a credentialed profile names its host and port. */
  lemma ExtensionCarriesProfile(proxy: Proxy)
    requires SelectStrategy(proxy).Extension?
    ensures CreateProxyExtension(proxy).Some?
    ensures Contains(CreateProxyExtension(proxy).value, HostField(proxy.ip))
    ensures Contains(CreateProxyExtension(proxy).value, PortField(proxy.port))
  {
    ScriptEmbedsProxy(proxy);
  }

  /** The browser is pointed at its session directory first; it gets a `--proxy-server`
      argument only for the plain strategy and an extension only for the credential one. */
  lemma BrowserOptionsSpec(profile: Profile, cwd: string)
    ensures var o := BrowserOptions(profile, cwd);
      var s := SelectStrategy(profile.proxy);
      && |o.arguments| >= 1
      && o.arguments[0] == "--user-data-dir=" + UserDataDir(cwd, profile.fingerprint)
      && (s.ProxyArg? <==> |o.arguments| == 2)
      && (s.ProxyArg? ==> o.arguments[1] == "--proxy-server=" + profile.proxy.ip + ":" + profile.proxy.port)
      && (s.Extension? <==> o.extensions == [ExtensionPath(cwd)])
      && (!s.Extension? <==> o.extensions == [])
  {
    StrategyCases(profile.proxy);
  }

  /** Two profiles never share a session directory. */
  lemma UserDataDirsDistinct(cwd: string, a: string, b: string)
    requires a != b
    ensures UserDataDir(cwd, a) != UserDataDir(cwd, b)
  {
    var prefix := cwd + "/chrome_profiles/";
    assert UserDataDir(cwd, a)[|prefix|..] == a;
    assert UserDataDir(cwd, b)[|prefix|..] == b;
  }

  /** The builder's example: a full credential proxy yields a script naming its address
      and port; an empty address or port yields nothing. */
  lemma BuilderExample()
    ensures var p := Proxy("1.2.3.4", "8080", "u", "p");
      && CreateProxyExtension(p).Some?
      && Contains(CreateProxyExtension(p).value, HostField("1.2.3.4"))
      && Contains(CreateProxyExtension(p).value, PortField("8080"))
    ensures CreateProxyExtension(Proxy("", "", "u", "p")) == None
    ensures CreateProxyExtension(Proxy("1.2.3.4", "", "u", "p")) == None
  {
    var p := Proxy("1.2.3.4", "8080", "u", "p");
    ScriptEmbedsProxy(p);
  }
}
