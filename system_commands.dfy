/** System commands: the command is classified on its lower-cased form as a
    request for information, a power control, process management or a file
    operation, in that order, and the chosen handler then inspects the
    command as given. */
module SystemCmds {
  import opened PyStr
  import opened Triggers
  import opened Helpers
  import opened Outcomes

  const InfoTriggers: seq<string> := [
    "system info", "system information", "ข้อมูลระบบ",
    "cpu", "memory", "ram", "disk", "storage",
    "uptime", "เวลาทำงาน", "system status", "สถานะระบบ"
  ]
  const ControlTriggers: seq<string> := [
    "shutdown", "restart", "reboot", "sleep", "hibernate",
    "ปิดเครื่อง", "รีสตาร์ท", "รีบูต", "สลีป", "ไฮเบอร์เนต"
  ]
  const ProcessTriggers: seq<string> := [
    "process", "task", "kill", "end", "terminate",
    "โปรเซส", "งาน", "ฆ่า", "จบ", "ยุติ"
  ]
  const FileTriggers: seq<string> := [
    "file", "folder", "directory", "create", "delete", "copy", "move",
    "ไฟล์", "โฟลเดอร์", "ไดเรกทอรี", "สร้าง", "ลบ", "คัดลอก", "ย้าย"
  ]

  // The words each handler looks for, in the order it tries them.
  const ResourceWords: seq<string> := ["cpu", "memory", "ram"]
  const DiskWords: seq<string> := ["disk", "storage"]
  const UptimeWords: seq<string> := ["uptime", "เวลาทำงาน"]
  const ShutdownWords: seq<string> := ["shutdown", "ปิดเครื่อง"]
  const RestartWords: seq<string> := ["restart", "reboot", "รีสตาร์ท", "รีบูต"]
  const SleepWords: seq<string> := ["sleep", "สลีป"]
  const KillWords: seq<string> := ["kill", "end", "terminate"]
  const ListWords: seq<string> := ["process", "task"]
  const CreateWords: seq<string> := ["create", "สร้าง"]
  const DeleteWords: seq<string> := ["delete", "ลบ"]

  const NotUnderstood: string := "ไม่เข้าใจคำสั่งระบบค่ะ กรุณาลองใหม่อีกครั้ง"
  const NotUnderstoodControl: string := "ไม่เข้าใจคำสั่งควบคุมระบบค่ะ"
  const NotUnderstoodProcess: string := "ไม่เข้าใจคำสั่งจัดการโปรเซสค่ะ"
  const NotUnderstoodFile: string := "ไม่เข้าใจคำสั่งจัดการไฟล์ค่ะ"
  const ShuttingDown: string := "กำลังปิดระบบค่ะ"
  const Restarting: string := "กำลังรีสตาร์ทระบบค่ะ"
  const GoingToSleep: string := "กำลังเข้าสู่โหมดสลีปค่ะ"
  const NameTheProcess: string := "การฆ่าโปรเซสต้องระบุชื่อโปรเซสที่ต้องการค่ะ"
  const CreateNeedsPlace: string := "การสร้างไฟล์หรือโฟลเดอร์ต้องระบุชื่อและตำแหน่งค่ะ"
  const DeleteNeedsPlace: string := "การลบไฟล์หรือโฟลเดอร์ต้องระบุชื่อและตำแหน่งค่ะ"
  const UptimeLead: string := "ระบบทำงานมาแล้ว "

  /** The replies built from live measurements (percentages and sizes in
      gigabytes); their figures are not modelled, only which one is given. */
  datatype Reading = Resources | DiskUsage | ProcessList | FullInfo

  /** A reply that is either fully determined or a measurement report. */
  datatype Answer = Told(reply: Reply) | Measured(reading: Reading)

  predicate IsInfo(command: string) { AnyIn(command, InfoTriggers) }
  predicate IsControl(command: string) { AnyIn(command, ControlTriggers) }
  predicate IsProcess(command: string) { AnyIn(command, ProcessTriggers) }
  predicate IsFile(command: string) { AnyIn(command, FileTriggers) }

  /** `_handle_system_info_command`: resources, then disk, then uptime,
      then the full summary. The uptime reply renders whole seconds. */
  function HandleInfo(uptime: nat, command: string): (a: Answer)
    ensures a.Told? <==> !AnyIn(command, ResourceWords) && !AnyIn(command, DiskWords) &&
                         AnyIn(command, UptimeWords)
    ensures a.Told? ==> a.reply == Say(UptimeLead + FormatTime(uptime))
    ensures a != Told(Say(NotUnderstood))
    ensures a == Measured(FullInfo) <==>
              !AnyIn(command, ResourceWords) && !AnyIn(command, DiskWords) && !AnyIn(command, UptimeWords)
    ensures a == Measured(Resources) <==> AnyIn(command, ResourceWords)
    ensures a == Measured(DiskUsage) <==> !AnyIn(command, ResourceWords) && AnyIn(command, DiskWords)
  {
    if AnyIn(command, ResourceWords) then Measured(Resources)
    else if AnyIn(command, DiskWords) then Measured(DiskUsage)
    else if AnyIn(command, UptimeWords) then
      assert (UptimeLead + FormatTime(uptime))[0] != NotUnderstood[0];
      Told(Say(UptimeLead + FormatTime(uptime)))
    else Measured(FullInfo)
  }

  /** The commands run to power off, restart and suspend, per platform. */
  function ShutdownRuns(p: Platform): seq<seq<string>> {
    if p == Windows then [["shutdown", "/s", "/t", "0"]] else [["sudo", "shutdown", "-h", "now"]]
  }
  function RestartRuns(p: Platform): seq<seq<string>> {
    if p == Windows then [["shutdown", "/r", "/t", "0"]] else [["sudo", "reboot"]]
  }
  function SleepRuns(p: Platform): seq<seq<string>> {
    match p
    case MacOS => [["pmset", "sleepnow"]]
    case Windows => [["powercfg", "/hibernate", "off"],
                     ["rundll32.exe", "powrprof.dll,SetSuspendState", "0,1,0"]]
    case OtherOS => [["systemctl", "suspend"]]
  }

  /** A reply that runs each command line in order. */
  function RunAll(text: string, runs: seq<seq<string>>): (r: Reply)
    ensures r.text == text && |r.effects| == |runs|
    ensures forall i :: 0 <= i < |runs| ==> r.effects[i] == Run(runs[i])
  {
    Reply(text, seq(|runs|, i requires 0 <= i < |runs| => Run(runs[i])))
  }

  /** `_handle_system_control_command`: shutdown, then restart, then sleep;
      anything else (hibernation included) is refused. */
  function HandleControl(platform: Platform, command: string): (r: Reply)
    ensures r.effects == [] <==> r == Say(NotUnderstoodControl)
    ensures r.text != NotUnderstood
    ensures r.effects == [] <==>
              !AnyIn(command, ShutdownWords) && !AnyIn(command, RestartWords) && !AnyIn(command, SleepWords)
    ensures AnyIn(command, ShutdownWords) ==> r == RunAll(ShuttingDown, ShutdownRuns(platform))
    ensures !AnyIn(command, ShutdownWords) && AnyIn(command, RestartWords) ==>
              r == RunAll(Restarting, RestartRuns(platform))
    ensures !AnyIn(command, ShutdownWords) && !AnyIn(command, RestartWords) && AnyIn(command, SleepWords) ==>
              r == RunAll(GoingToSleep, SleepRuns(platform))
  {
    if AnyIn(command, ShutdownWords) then RunAll(ShuttingDown, ShutdownRuns(platform))
    else if AnyIn(command, RestartWords) then RunAll(Restarting, RestartRuns(platform))
    else if AnyIn(command, SleepWords) then RunAll(GoingToSleep, SleepRuns(platform))
    else Say(NotUnderstoodControl)
  }

  /** `_handle_process_command`: killing always answers with the request
      to name the process; listing reports the busiest processes. */
  function HandleProcess(command: string): (a: Answer)
    ensures a.Told? ==> a.reply.effects == [] && a.reply.text != NotUnderstood
    ensures AnyIn(command, KillWords) ==> a == Told(Say(NameTheProcess))
    ensures a == Told(Say(NotUnderstoodProcess)) <==>
              !AnyIn(command, KillWords) && !AnyIn(command, ListWords)
    ensures !AnyIn(command, KillWords) && AnyIn(command, ListWords) ==> a == Measured(ProcessList)
  {
    if AnyIn(command, KillWords) then Told(Say(NameTheProcess))
    else if AnyIn(command, ListWords) then Measured(ProcessList)
    else Told(Say(NotUnderstoodProcess))
  }

  /** `_handle_file_command`: creation wins over deletion even when both
      are asked for; neither touches the file system. */
  function HandleFile(command: string): (r: Reply)
    ensures r.effects == [] && r.text != NotUnderstood
    ensures AnyIn(command, CreateWords) ==> r.text == CreateNeedsPlace
    ensures r.text == DeleteNeedsPlace <==> !AnyIn(command, CreateWords) && AnyIn(command, DeleteWords)
    ensures r.text == NotUnderstoodFile <==> !AnyIn(command, CreateWords) && !AnyIn(command, DeleteWords)
  {
    if AnyIn(command, CreateWords) then Say(CreateNeedsPlace)
    else if AnyIn(command, DeleteWords) then Say(DeleteNeedsPlace)
    else Say(NotUnderstoodFile)
  }

  /** `SystemCommands.process_command`: classification reads the lower-cased
      command, each handler the command as given. */
  function ProcessCommand(platform: Platform, uptime: nat, command: string): (a: Answer)
    ensures IsInfo(Lower(command)) ==> a == HandleInfo(uptime, command)
    ensures (!IsInfo(Lower(command)) && IsControl(Lower(command))) ==>
              a == Told(HandleControl(platform, command))
    ensures (!IsInfo(Lower(command)) && !IsControl(Lower(command)) && IsProcess(Lower(command))) ==>
              a == HandleProcess(command)
    ensures (!IsInfo(Lower(command)) && !IsControl(Lower(command)) && !IsProcess(Lower(command)) &&
             IsFile(Lower(command))) ==>
              a == Told(HandleFile(command))
    ensures a == Told(Say(NotUnderstood)) <==>
              !IsInfo(Lower(command)) && !IsControl(Lower(command)) &&
              !IsProcess(Lower(command)) && !IsFile(Lower(command))
    ensures (a.Told? && a.reply.effects != []) ==> !IsInfo(Lower(command)) && IsControl(Lower(command))
  {
    var lower := Lower(command);
    if IsInfo(lower) then HandleInfo(uptime, command)
    else if IsControl(lower) then Told(HandleControl(platform, command))
    else if IsProcess(lower) then HandleProcess(command)
    else if IsFile(lower) then Told(HandleFile(command))
    else Told(Say(NotUnderstood))
  }

  // ---------------------------------------------------------------------
  // Consequences of substring classification

  lemma ProgramFacts()
    ensures Lower("program") == "program"
    ensures IsInfo("program") && AnyIn("program", ResourceWords)
  {
    HitAt("program", InfoTriggers, 5);
    HitAt("program", ResourceWords, 2);
  }

  /** "ram" inside "program" makes it a request for resource usage. */
  lemma ProgramIsResourceRequest(platform: Platform, uptime: nat)
    ensures ProcessCommand(platform, uptime, "program") == Measured(Resources)
  {
    ProgramFacts();
  }

  lemma CpuLowered(command: string)
    requires command == "CPU"
    ensures Lower(command) == "cpu"
  {
  }

  lemma CpuDetected(lower: string)
    requires lower == "cpu"
    ensures IsInfo(lower)
  {
    ContainsAt(lower, "cpu", 0);
    HitAt(lower, InfoTriggers, 3);
  }

  lemma CpuNoWords(command: string)
    requires command == "CPU"
    ensures !AnyIn(command, ResourceWords) && !AnyIn(command, DiskWords) && !AnyIn(command, UptimeWords)
  {
    MissStep(command, ResourceWords, 2);
    MissStep(command, ResourceWords, 1);
    MissStep(command, ResourceWords, 0);
    MissAll(command, ResourceWords);
    MissStep(command, DiskWords, 1);
    MissStep(command, DiskWords, 0);
    MissAll(command, DiskWords);
    MissStep(command, UptimeWords, 1);
    MissStep(command, UptimeWords, 0);
    MissAll(command, UptimeWords);
  }

  /** "CPU" is classified as an information request on its lower-cased
      form, but the handler looks for "cpu" in "CPU" and finds nothing, so
      the full summary is given rather than CPU usage. */
  lemma UpperCpuGetsFullInfo(platform: Platform, uptime: nat)
    ensures ProcessCommand(platform, uptime, "CPU") == Measured(FullInfo)
  {
    CpuLowered("CPU");
    CpuDetected("cpu");
    CpuNoWords("CPU");
  }

  lemma HibernateNotInfo()
    ensures !IsInfo("hibernate")
  {
    HibernateNotInfoFrom3();
    MissStep("hibernate", InfoTriggers, 2);
    MissStep("hibernate", InfoTriggers, 1);
    MissStep("hibernate", InfoTriggers, 0);
    MissAll("hibernate", InfoTriggers);
  }

  lemma HibernateNotInfoFrom3()
    ensures !AnyFrom("hibernate", InfoTriggers, 3)
  {
    HibernateNotInfoFrom6();
    MissStep("hibernate", InfoTriggers, 5);
    MissStep("hibernate", InfoTriggers, 4);
    MissStep("hibernate", InfoTriggers, 3);
  }

  lemma HibernateNotInfoFrom6()
    ensures !AnyFrom("hibernate", InfoTriggers, 6)
  {
    HibernateNotInfoFrom9();
    MissStep("hibernate", InfoTriggers, 8);
    MissStep("hibernate", InfoTriggers, 7);
    MissStep("hibernate", InfoTriggers, 6);
  }

  lemma HibernateNotInfoFrom9()
    ensures !AnyFrom("hibernate", InfoTriggers, 9)
  {
    MissStep("hibernate", InfoTriggers, 11);
    MissStep("hibernate", InfoTriggers, 10);
    MissStep("hibernate", InfoTriggers, 9);
  }

  lemma HibernateIsControl()
    ensures IsControl("hibernate")
  {
    ContainsAt("hibernate", "hibernate", 0);
    HitAt("hibernate", ControlTriggers, 4);
  }

  lemma HibernateNoShutdown()
    ensures !AnyIn("hibernate", ShutdownWords)
  {
    MissStep("hibernate", ShutdownWords, 1);
    MissStep("hibernate", ShutdownWords, 0);
    MissAll("hibernate", ShutdownWords);
  }

  lemma HibernateNoRestart()
    ensures !AnyIn("hibernate", RestartWords)
  {
    MissStep("hibernate", RestartWords, 3);
    MissStep("hibernate", RestartWords, 2);
    MissStep("hibernate", RestartWords, 1);
    MissStep("hibernate", RestartWords, 0);
    MissAll("hibernate", RestartWords);
  }

  lemma HibernateNoSleep()
    ensures !AnyIn("hibernate", SleepWords)
  {
    MissStep("hibernate", SleepWords, 1);
    MissStep("hibernate", SleepWords, 0);
    MissAll("hibernate", SleepWords);
  }

  lemma HibernateLowered(command: string)
    requires command == "hibernate"
    ensures Lower(command) == command
  {
  }

  /** "hibernate" passes control detection but no control action matches
      it, so it is refused and nothing is run. */
  lemma HibernateRefused(platform: Platform, uptime: nat, command: string)
    requires command == "hibernate"
    ensures ProcessCommand(platform, uptime, command) == Told(Say(NotUnderstoodControl))
  {
    HibernateLowered(command);
    HibernateNotInfo();
    HibernateIsControl();
    HibernateNoShutdown();
    HibernateNoRestart();
    HibernateNoSleep();
  }

  lemma KillThaiNotInfo()
    ensures !IsInfo("ฆ่าโปรเซส")
  {
    KillThaiNotInfoFrom3();
    MissStep("ฆ่าโปรเซส", InfoTriggers, 2);
    MissStep("ฆ่าโปรเซส", InfoTriggers, 1);
    MissStep("ฆ่าโปรเซส", InfoTriggers, 0);
    MissAll("ฆ่าโปรเซส", InfoTriggers);
  }

  lemma KillThaiNotInfoFrom3()
    ensures !AnyFrom("ฆ่าโปรเซส", InfoTriggers, 3)
  {
    KillThaiNotInfoFrom6();
    MissStep("ฆ่าโปรเซส", InfoTriggers, 5);
    MissStep("ฆ่าโปรเซส", InfoTriggers, 4);
    MissStep("ฆ่าโปรเซส", InfoTriggers, 3);
  }

  lemma KillThaiNotInfoFrom6()
    ensures !AnyFrom("ฆ่าโปรเซส", InfoTriggers, 6)
  {
    KillThaiNotInfoFrom9();
    MissStep("ฆ่าโปรเซส", InfoTriggers, 8);
    MissStep("ฆ่าโปรเซส", InfoTriggers, 7);
    MissStep("ฆ่าโปรเซส", InfoTriggers, 6);
  }

  lemma KillThaiNotInfoFrom9()
    ensures !AnyFrom("ฆ่าโปรเซส", InfoTriggers, 9)
  {
    MissStep("ฆ่าโปรเซส", InfoTriggers, 11);
    MissStep("ฆ่าโปรเซส", InfoTriggers, 10);
    MissStep("ฆ่าโปรเซส", InfoTriggers, 9);
  }

  lemma KillThaiNotControl()
    ensures !IsControl("ฆ่าโปรเซส")
  {
    KillThaiNotControlFrom3();
    MissStep("ฆ่าโปรเซส", ControlTriggers, 2);
    MissStep("ฆ่าโปรเซส", ControlTriggers, 1);
    MissStep("ฆ่าโปรเซส", ControlTriggers, 0);
    MissAll("ฆ่าโปรเซส", ControlTriggers);
  }

  lemma KillThaiNotControlFrom3()
    ensures !AnyFrom("ฆ่าโปรเซส", ControlTriggers, 3)
  {
    KillThaiNotControlFrom6();
    MissStep("ฆ่าโปรเซส", ControlTriggers, 5);
    MissStep("ฆ่าโปรเซส", ControlTriggers, 4);
    MissStep("ฆ่าโปรเซส", ControlTriggers, 3);
  }

  lemma KillThaiNotControlFrom6()
    ensures !AnyFrom("ฆ่าโปรเซส", ControlTriggers, 6)
  {
    KillThaiNotControlFrom9();
    MissStep("ฆ่าโปรเซส", ControlTriggers, 8);
    MissStep("ฆ่าโปรเซส", ControlTriggers, 7);
    MissStep("ฆ่าโปรเซส", ControlTriggers, 6);
  }

  lemma KillThaiNotControlFrom9()
    ensures !AnyFrom("ฆ่าโปรเซส", ControlTriggers, 9)
  {
    MissStep("ฆ่าโปรเซส", ControlTriggers, 9);
  }

  lemma KillThaiIsProcess()
    ensures IsProcess("ฆ่าโปรเซส")
  {
    assert "ฆ่าโปรเซส"[3..9] == "โปรเซส";
    ContainsAt("ฆ่าโปรเซส", "โปรเซส", 3);
    HitAt("ฆ่าโปรเซส", ProcessTriggers, 5);
  }

  lemma KillThaiNoEnglishWord()
    ensures !AnyIn("ฆ่าโปรเซส", KillWords) && !AnyIn("ฆ่าโปรเซส", ListWords)
  {
    KillThaiNoKillWord();
    KillThaiNoListWord();
  }

  lemma KillThaiNoKillWord()
    ensures !AnyIn("ฆ่าโปรเซส", KillWords)
  {
    MissStep("ฆ่าโปรเซส", KillWords, 2);
    MissStep("ฆ่าโปรเซส", KillWords, 1);
    MissStep("ฆ่าโปรเซส", KillWords, 0);
    MissAll("ฆ่าโปรเซส", KillWords);
  }

  lemma KillThaiNoListWord()
    ensures !AnyIn("ฆ่าโปรเซส", ListWords)
  {
    MissStep("ฆ่าโปรเซส", ListWords, 1);
    MissStep("ฆ่าโปรเซส", ListWords, 0);
    MissAll("ฆ่าโปรเซส", ListWords);
  }

  lemma KillThaiLowered(command: string)
    requires command == "ฆ่าโปรเซส"
    ensures Lower(command) == command
  {
  }

  /** The process handler only looks for English words, so "ฆ่าโปรเซส"
      ("kill process") is classified as process management and then
      refused. */
  lemma ThaiKillRefused(platform: Platform, uptime: nat, command: string)
    requires command == "ฆ่าโปรเซส"
    ensures ProcessCommand(platform, uptime, command) == Told(Say(NotUnderstoodProcess))
  {
    KillThaiLowered(command);
    KillThaiNotInfo();
    KillThaiNotControl();
    KillThaiIsProcess();
    KillThaiNoEnglishWord();
  }
}
