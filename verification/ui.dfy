/** The decisions the window's buttons take before calling the store, and
    the bot launch they lead to. Widgets and message boxes are not modelled:
    each outcome below stands for the message the window shows. */
module Ui {
  import opened Text
  import opened Paths
  import opened Crypto
  import opened Credentials

  /** `on_save`: the entered text, stripped, is saved unless nothing is left
      of it (`None` is the "Missing Data" warning). */
  function SaveInput(entered: string): (r: Option<string>)
    ensures r.None? <==> Blank(entered)
    ensures r.Some? ==> r.value == Strip(entered) && r.value != ""
  {
    var data := Strip(entered);
    if data == "" then None else Some(data)
  }

  /** Outcome of `on_launch` before the bot is started. */
  datatype LaunchCheck = InvalidAction | MissingToken | Proceed(token: string)

  /** `on_launch`: only a Discord token may be launched (the provider compared
      without regard to case), and only when the stripped entry is not empty. */
  function LaunchInput(category: string, provider: string, entered: string): (r: LaunchCheck)
    ensures r == InvalidAction <==> category != "tokens" || Lower(provider) != "discord"
    ensures r == MissingToken <==> category == "tokens" && Lower(provider) == "discord" && Blank(entered)
    ensures r.Proceed? ==> r.token == Strip(entered) && r.token != ""
  {
    if category != "tokens" || Lower(provider) != "discord" then InvalidAction
    else
      var token := Strip(entered);
      if token == "" then MissingToken else Proceed(token)
  }

  /** `BOT_FILE`, the script the launch runs. */
  const BotFile := "main.py"

  /** The environment variable the bot reads its token from. */
  const TokenVariable := "DISCORD_TOKEN"

  /** Outcome of `launch_bot`: the bot script is missing, the child process
      was started with these arguments and this environment, or starting it
      failed. */
  datatype LaunchResult = BotFileMissing | Launched(argv: seq<string>, env: map<string, string>) | SpawnFailed

  /** `launch_bot`: with the bot script present, start `python main.py` in a
      copy of the parent's environment that also maps `DISCORD_TOKEN` to the
      token. The file check and the outcome of spawning are parameters. */
  function LaunchBot(token: string, botFileExists: bool, spawnSucceeds: bool,
                     parentEnv: map<string, string>): (r: LaunchResult)
    ensures !botFileExists <==> r == BotFileMissing
    ensures r.Launched? ==> r.argv == ["python", BotFile]
    ensures r.Launched? ==> r.env.Keys == parentEnv.Keys + {TokenVariable} && r.env[TokenVariable] == token
    ensures r.Launched? ==> forall v | v in parentEnv && v != TokenVariable :: r.env[v] == parentEnv[v]
    ensures botFileExists ==> (r.Launched? <==> spawnSucceeds)
  {
    if !botFileExists then BotFileMissing
    else if !spawnSucceeds then SpawnFailed
    else Launched(["python", BotFile], parentEnv[TokenVariable := token])
  }

  /** `save_data` strips once more what `on_save` has already stripped, so
      saving through the window stores exactly what saving the raw entry
      would. */
  lemma SaveInputThenSave(d: Disk, base: Path, entered: string, category: string, provider: string,
                          c: Cipher, newKey: Bytes, iv: Bytes)
    requires SaveInput(entered).Some?
    ensures SaveStep(d, base, SaveInput(entered).value, category, provider, c, newKey, iv)
         == SaveStep(d, base, entered, category, provider, c, newKey, iv)
  {
    StripIdempotent(entered);
  }

  /** A launch the window lets through is for the one entry whose ciphertext
      file is `base/tokens/encrypted/.discord.token`, whatever the case of the
      provider label. */
  lemma LaunchOnlyForDiscordToken(base: Path, category: string, provider: string, entered: string)
    requires LaunchInput(category, provider, entered).Proceed?
    ensures GetPaths(base, category, provider) == GetPaths(base, "tokens", "discord")
    ensures GetPaths(base, category, provider).tokenFile == base + ["tokens", "encrypted", ".discord.token"]
  {
    GetPathsIgnoresCase(base, category, provider);
    LowerIdempotent(provider);
    assert Lower("discord") == "discord";
    assert "." + "discord" + Ext("tokens") == ".discord.token";
  }

  /** The whole path through the window: a Discord token saved with "Save",
      shown again when the entry is reloaded and launched with "Launch Discord
      Bot" reaches the bot, stripped, under `DISCORD_TOKEN`. */
  lemma SavedTokenReachesBot(d: Disk, base: Path, entered: string, provider: string,
                             c: Cipher, newKey: Bytes, iv: Bytes, loadKey: Bytes,
                             parentEnv: map<string, string>)
    requires RoundTrip(c)
    requires Lower(provider) == "discord"
    requires SaveInput(entered).Some?
    requires SaveStep(d, base, SaveInput(entered).value, "tokens", provider, c, newKey, iv).result.Ok?
    ensures var s := SaveStep(d, base, SaveInput(entered).value, "tokens", provider, c, newKey, iv);
      var shown := LoadStep(s.disk, base, "tokens", provider, c, loadKey).text;
      && LaunchInput("tokens", provider, shown) == Proceed(Strip(entered))
      && LaunchBot(LaunchInput("tokens", provider, shown).token, true, true, parentEnv).env[TokenVariable]
           == Strip(entered)
  {
    var data := SaveInput(entered).value;
    SaveThenLoad(d, base, data, "tokens", provider, c, newKey, iv, provider, loadKey);
    StripIdempotent(entered);
    StripIdempotent(data);
  }
}
