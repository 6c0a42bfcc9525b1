/** What a command handler hands back: the text the assistant speaks, plus the
    side effects it asked the operating system for, as data. The environment
    that decides which files exist and which OS the assistant runs on is a
    parameter. */
module Outcomes {

  /** `is_macos()`, `is_windows()`, and every other system. */
  datatype Platform = MacOS | Windows | OtherOS

  /** A request made to the outside world. */
  datatype Effect =
    | OpenUrl(url: string)
      /** `webbrowser.open(prefix + urllib.parse.quote(query) + suffix)`; the
          percent-encoding itself is not modelled. */
    | OpenQuoted(prefix: string, query: string, suffix: string)
      /** `pywhatkit.playonyt(query)`. */
    | PlayOnYouTube(query: string)
      /** `subprocess.Popen([path])`. */
    | Launch(path: string)
      /** `subprocess.run(argv)`. */
    | Run(argv: seq<string>)

  /** The reply text and the effects requested, in order. */
  datatype Reply = Reply(text: string, effects: seq<Effect>)

  /** A reply that only speaks. */
  function Say(text: string): (r: Reply)
    ensures r.text == text && r.effects == []
  {
    Reply(text, [])
  }

  /** The environment a handler consults: the OS, `os.path.exists`, the
      `USERNAME` variable as the path templates render it, and whether
      `pywhatkit.playonyt` succeeds. */
  datatype World = World(
    platform: Platform,
    pathExists: string -> bool,
    userName: string,
    youTubePlays: bool)
}
