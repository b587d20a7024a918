/** The coroutines of the browser captcha service, reduced to their locking skeletons.

  A body keeps the suspension points, lock scopes, calls, branches, loops and exception
  handlers; data and conditions are left out, so each branch stands for either outcome.
  `Maybe(s)` is an `if` (or an early return around `s`). */
module CaptchaProcedures {

  datatype Lock =
    | Custom
    | LegacySlots
    | Recover
    | Browser
    | Build
    | Solve(tab: nat)
    | Resident
    | LegacySubmit

  function Rank(l: Lock): nat {
    match l
    case Custom => 1
    case LegacySlots => 2
    case Recover => 3
    case Browser => 4
    case Build => 5
    case Solve(_) => 6
    case Resident => 7
    case LegacySubmit => 8
  }

  const UNLOCKED: nat := 9

  /** Everything is a mutex but the legacy semaphore, which admits two. */
  function Capacity(l: Lock): nat {
    if l == LegacySlots then 2 else 1
  }

  datatype Stmt =
    | Skip
    | Await                                          // anything outside; completes or raises
    | Call(proc: Proc)
    | Seq(first: Stmt, second: Stmt)
    | Choice(left: Stmt, right: Stmt)
    | Loop(body: Stmt)
    | Sync(lock: Lock, body: Stmt)                   // async with lock: body
    | SyncSolve(body: Stmt)                          // async with some tab's solve lock: body
    | TimedSync(lock: Lock, body: Stmt, late: Stmt)  // wait_for(acquire), or the timeout branch
    | Try(body: Stmt, handler: Stmt)

  function Maybe(s: Stmt): Stmt {
    Choice(Skip, s)
  }

  /** Procedures, filed under the least rank they may take: a caller must hold only locks below it. */
  datatype Proc =
    | InCustom(CustomProc)
    | InLegacy(LegacyProc)
    | InRecover(RecoverProc)
    | InBrowser(BrowserProc)
    | InBuild(BuildProc)
    | InSolve(SolveProc)
    | InResident(ResidentProc)
    | InSubmit(SubmitProc)
    | InNone(PlainProc)

  datatype CustomProc = CustomToken
  datatype LegacyProc = GetToken | LegacyToken
  datatype RecoverProc = RestartForProject | RecoverRuntime | RecoverThenEnsure | RetrySolve
    | RefreshSession | ReportError | RebuildOrRecover | SolvePooled | FindSessionTab | RefreshRecovery
  datatype BrowserProc = ShutdownRuntime | Initialize | WarmupPool | RestartUnlocked
    | CloseService | SubmitRequest | LoginWindow
  datatype BuildProc = EnsureTab | RebuildTab
  datatype SolveProc = SolveOnTab | ClearAndReload | ReadSession
  datatype ResidentProc = ResidentSection | ShutdownLocked | CreateTab
    | CloseResident | ReportSuccess | StopResidentMode | IdleReaper
  datatype SubmitProc = RememberLegacyTab | PopLegacyTab
  datatype PlainProc = Quietly

  function Takes(p: Proc): (rank: nat)
    ensures rank > 0
  {
    match p
    case InCustom(_) => Rank(Custom)
    case InLegacy(_) => Rank(LegacySlots)
    case InRecover(_) => Rank(Recover)
    case InBrowser(_) => Rank(Browser)
    case InBuild(_) => Rank(Build)
    case InSolve(_) => Rank(Solve(0))
    case InResident(_) => Rank(Resident)
    case InSubmit(_) => Rank(LegacySubmit)
    case InNone(_) => UNLOCKED
  }

  /** The coroutines other services call. */
  predicate Public(p: Proc) {
    match p
    case InCustom(_) | InSubmit(_) => true
    case InLegacy(q) => q == GetToken
    case InRecover(q) => q == RefreshSession || q == ReportError
    case InBrowser(q) => q != ShutdownRuntime && q != RestartUnlocked
    case InResident(q) => q == ReportSuccess || q == StopResidentMode || q == IdleReaper
    case _ => false
  }

  // ---------------------------------------------------------------- the locking discipline

  /** Every lock taken inside `s` ranks above `level`, and nested ones rank higher still. */
  predicate OrderedStmt(s: Stmt, level: nat) {
    match s
    case Skip => true
    case Await => true
    case Call(p) => level < Takes(p)
    case Seq(a, b) => OrderedStmt(a, level) && OrderedStmt(b, level)
    case Choice(a, b) => OrderedStmt(a, level) && OrderedStmt(b, level)
    case Loop(b) => OrderedStmt(b, level)
    case Sync(l, b) => Rank(l) > level && OrderedStmt(b, Rank(l))
    case SyncSolve(b) => Rank(Solve(0)) > level && OrderedStmt(b, Rank(Solve(0)))
    case TimedSync(l, b, late) => Rank(l) > level && OrderedStmt(b, Rank(l)) && OrderedStmt(late, level)
    case Try(b, h) => OrderedStmt(b, level) && OrderedStmt(h, level)
  }

  /** A body that takes only locks ranked `rank` or above, in ascending order. */
  predicate ClimbsFrom(s: Stmt, rank: nat)
    requires rank > 0
  {
    OrderedStmt(s, rank - 1)
  }

  // ---------------------------------------------------------------- bodies

  // any awaited call whose exceptions are swallowed: closing a tab, probing the browser
  function QuietlyCode(): Stmt {
    Try(Await, Skip)
  }

  // a section under the resident lock; no section suspends while it holds it
  function ResidentSectionCode(): Stmt {
    Sync(Resident, Skip)
  }

  function ShutdownLockedCode(): Stmt {
    Seq(Call(InResident(ResidentSection)), Seq(Sync(LegacySubmit, Skip),
        Seq(Loop(Call(InNone(Quietly))), Call(InNone(Quietly)))))
  }

  // the first call waits for the cancelled reaper task, which only CloseService asks for; no lock is held
  // there, so it is like any other await
  function ShutdownRuntimeCode(): (s: Stmt)
    ensures ClimbsFrom(s, Rank(Browser))
  {
    Seq(Maybe(Call(InNone(Quietly))), Sync(Browser, Try(Call(InResident(ShutdownLocked)), Skip)))
  }

  function InitializeCode(): (s: Stmt)
    ensures ClimbsFrom(s, Rank(Browser))
  {
    Maybe(Sync(Browser, Seq(Maybe(Call(InNone(Quietly))), Maybe(Seq(Maybe(Call(InResident(ShutdownLocked))),
        Try(Await, Await))))))
  }

  function CreateTabCode(): (s: Stmt)
    ensures ClimbsFrom(s, Rank(Resident))
  {
    Try(Seq(Call(InResident(ResidentSection)), Maybe(Seq(Await, Seq(Loop(Call(InNone(Quietly))), Await)))), Skip)
  }

  function EnsureTabCode(): (s: Stmt)
    ensures ClimbsFrom(s, Rank(Build))
  {
    var build := Seq(Call(InResident(ResidentSection)), Maybe(Seq(Call(InResident(CreateTab)),
        Call(InResident(ResidentSection)))));
    Seq(Call(InResident(ResidentSection)), Maybe(Loop(TimedSync(Build, build, Maybe(Call(InResident(ResidentSection)))))))
  }

  function RebuildTabCode(): (s: Stmt)
    ensures ClimbsFrom(s, Rank(Build))
  {
    var closeOld := Try(SyncSolve(Call(InNone(Quietly))), Call(InNone(Quietly)));
    Sync(Build, Seq(Call(InResident(ResidentSection)), Seq(Maybe(closeOld),
        Seq(Call(InResident(CreateTab)), Maybe(Call(InResident(ResidentSection)))))))
  }

  function WarmupPoolCode(): Stmt {
    Seq(Call(InBrowser(Initialize)), Loop(Call(InBuild(EnsureTab))))
  }

  function RestartUnlockedCode(): (s: Stmt)
    ensures ClimbsFrom(s, Rank(Browser))
  {
    Seq(Call(InResident(ResidentSection)), Seq(Call(InBrowser(ShutdownRuntime)),
        Seq(Call(InBrowser(WarmupPool)), Maybe(Call(InBuild(EnsureTab))))))
  }

  function RestartForProjectCode(): (s: Stmt)
    ensures ClimbsFrom(s, Rank(Recover))
  {
    var reuse := Try(Seq(Call(InNone(Quietly)), Maybe(Call(InBuild(EnsureTab)))), Skip);
    Sync(Recover, Seq(Maybe(reuse), Maybe(Call(InBrowser(RestartUnlocked)))))
  }

  function RecoverRuntimeCode(): (s: Stmt)
    ensures ClimbsFrom(s, Rank(Recover))
  {
    var restart := Maybe(Try(Call(InBrowser(RestartUnlocked)), Skip));
    var reinitialize := Maybe(Try(Seq(Call(InBrowser(ShutdownRuntime)), Call(InBrowser(Initialize))), Skip));
    Sync(Recover, Seq(Maybe(Call(InNone(Quietly))), Maybe(Seq(restart, reinitialize))))
  }

  function RecoverThenEnsureCode(): (s: Stmt)
    ensures ClimbsFrom(s, Rank(Recover))
  {
    Seq(Maybe(Call(InNone(Quietly))), Seq(Call(InRecover(RecoverRuntime)), Maybe(Call(InBuild(EnsureTab)))))
  }

  function SolveOnTabCode(): Stmt {
    Seq(SyncSolve(Await), Maybe(Await))
  }

  function RetrySolveCode(): (s: Stmt)
    ensures ClimbsFrom(s, Rank(Recover))
  {
    Try(Call(InSolve(SolveOnTab)), Maybe(Seq(Call(InRecover(RecoverThenEnsure)),
        Maybe(Try(Call(InSolve(SolveOnTab)), Skip)))))
  }

  function LegacyTokenCode(): Stmt {
    var attempt := Seq(Try(Await, Maybe(Call(InRecover(RecoverRuntime)))), Maybe(Call(InNone(Quietly))));
    Sync(LegacySlots, Loop(Seq(Maybe(Call(InBrowser(Initialize))), attempt)))
  }

  function ClearAndReloadCode(): Stmt {
    Seq(Call(InResident(ResidentSection)), Maybe(Try(SyncSolve(Await), Skip)))
  }

  function CloseResidentCode(): Stmt {
    Seq(Call(InResident(ResidentSection)), Maybe(Call(InNone(Quietly))))
  }

  function RebuildOrRecoverCode(): (s: Stmt)
    ensures ClimbsFrom(s, Rank(Recover))
  {
    Seq(Call(InBuild(RebuildTab)), Maybe(Call(InRecover(RecoverThenEnsure))))
  }

  function SolvePooledCode(): (s: Stmt)
    ensures ClimbsFrom(s, Rank(Recover))
  {
    var again := Choice(Call(InRecover(RetrySolve)), Seq(Call(InRecover(RecoverThenEnsure)),
        Maybe(Try(Call(InSolve(SolveOnTab)), Skip))));
    Seq(Call(InRecover(RetrySolve)), Maybe(Seq(Call(InRecover(RebuildOrRecover)), again)))
  }

  function GetTokenCode(): (s: Stmt)
    ensures ClimbsFrom(s, Rank(LegacySlots))
  {
    var pooled := Seq(Maybe(Call(InRecover(RebuildOrRecover))), Maybe(Call(InRecover(SolvePooled))));
    var found := Seq(Call(InBuild(EnsureTab)), Maybe(Call(InRecover(RecoverThenEnsure))));
    Seq(Call(InBrowser(Initialize)), Seq(found, Seq(Maybe(pooled), Maybe(Call(InLegacy(LegacyToken))))))
  }

  function SubmitRequestCode(): (s: Stmt)
    ensures ClimbsFrom(s, Rank(Browser))
  {
    Seq(Call(InBrowser(Initialize)), Seq(Call(InBuild(EnsureTab)),
        Seq(Maybe(Call(InBuild(RebuildTab))), SyncSolve(Await))))
  }

  function FindSessionTabCode(): Stmt {
    var missing := Seq(Call(InNone(Quietly)), Maybe(Call(InRecover(RecoverRuntime))));
    Seq(Call(InResident(ResidentSection)), Seq(Maybe(Call(InBuild(EnsureTab))), Maybe(missing)))
  }

  function ReadSessionCode(): Stmt {
    SyncSolve(Seq(Await, Seq(Loop(Call(InNone(Quietly))), Try(Await, Call(InNone(Quietly))))))
  }

  function RefreshRecoveryCode(): (s: Stmt)
    ensures ClimbsFrom(s, Rank(Recover))
  {
    var readAgain := Try(SyncSolve(Await), Maybe(Call(InRecover(RecoverRuntime))));
    Seq(Maybe(Call(InRecover(RecoverRuntime))), Maybe(Seq(Call(InBuild(RebuildTab)), Maybe(readAgain))))
  }

  function RefreshSessionCode(): Stmt {
    Loop(Seq(Call(InBrowser(Initialize)), Seq(Call(InRecover(FindSessionTab)),
        Try(Call(InSolve(ReadSession)), Call(InRecover(RefreshRecovery))))))
  }

  function ReportErrorCode(): (s: Stmt)
    ensures ClimbsFrom(s, Rank(Recover))
  {
    var onTab := Choice(Call(InBuild(RebuildTab)), Seq(Call(InSolve(ClearAndReload)), Maybe(Call(InBuild(RebuildTab)))));
    Seq(Call(InResident(ResidentSection)), Maybe(Choice(Call(InRecover(RestartForProject)), onTab)))
  }

  function StopResidentModeCode(): Stmt {
    var all := Seq(Call(InResident(ResidentSection)), Loop(Call(InNone(Quietly))));
    Seq(Maybe(Call(InResident(ResidentSection))), Choice(Call(InResident(CloseResident)), all))
  }

  function IdleReaperCode(): Stmt {
    Loop(Try(Seq(Await, Seq(Call(InResident(ResidentSection)), Loop(Call(InResident(CloseResident))))), Skip))
  }

  function CustomTokenCode(): Stmt {
    Seq(Call(InBrowser(Initialize)), Sync(Custom, Loop(Try(Await, Call(InNone(Quietly))))))
  }

  function LoginWindowCode(): Stmt {
    Seq(Call(InBrowser(Initialize)), Await)
  }

  function RememberLegacyTabCode(): Stmt {
    Seq(Sync(LegacySubmit, Skip), Maybe(Call(InNone(Quietly))))
  }

  function PopLegacyTabCode(): Stmt {
    Sync(LegacySubmit, Skip)
  }

  // ---------------------------------------------------------------- the table

  /** Each procedure takes only locks at or above the rank it is filed under, in ascending
      order, and calls others only where theirs allow it. */
  function Code(p: Proc): (s: Stmt)
    ensures ClimbsFrom(s, Takes(p))
  {
    match p
    case InCustom(q) => CustomCode(q)
    case InLegacy(q) => LegacyCode(q)
    case InRecover(q) => RecoverCode(q)
    case InBrowser(q) => BrowserCode(q)
    case InBuild(q) => BuildCode(q)
    case InSolve(q) => SolveCode(q)
    case InResident(q) => ResidentCode(q)
    case InSubmit(q) => SubmitCode(q)
    case InNone(q) => PlainCode(q)
  }

  function CustomCode(q: CustomProc): (s: Stmt)
    ensures ClimbsFrom(s, Rank(Custom))
  {
    match q
    case CustomToken => CustomTokenCode()
  }

  function LegacyCode(q: LegacyProc): (s: Stmt)
    ensures ClimbsFrom(s, Rank(LegacySlots))
  {
    match q
    case GetToken => GetTokenCode()
    case LegacyToken => LegacyTokenCode()
  }

  function RecoverCode(q: RecoverProc): (s: Stmt)
    ensures ClimbsFrom(s, Rank(Recover))
  {
    match q
    case RestartForProject => RestartForProjectCode()
    case RecoverRuntime => RecoverRuntimeCode()
    case RecoverThenEnsure => RecoverThenEnsureCode()
    case RetrySolve => RetrySolveCode()
    case RefreshSession => RefreshSessionCode()
    case ReportError => ReportErrorCode()
    case RebuildOrRecover => RebuildOrRecoverCode()
    case SolvePooled => SolvePooledCode()
    case FindSessionTab => FindSessionTabCode()
    case RefreshRecovery => RefreshRecoveryCode()
  }

  function BrowserCode(q: BrowserProc): (s: Stmt)
    ensures ClimbsFrom(s, Rank(Browser))
  {
    match q
    case ShutdownRuntime => ShutdownRuntimeCode()
    case Initialize => InitializeCode()
    case WarmupPool => WarmupPoolCode()
    case RestartUnlocked => RestartUnlockedCode()
    case CloseService => Call(InBrowser(ShutdownRuntime))
    case SubmitRequest => SubmitRequestCode()
    case LoginWindow => LoginWindowCode()
  }

  function BuildCode(q: BuildProc): (s: Stmt)
    ensures ClimbsFrom(s, Rank(Build))
  {
    match q
    case EnsureTab => EnsureTabCode()
    case RebuildTab => RebuildTabCode()
  }

  function SolveCode(q: SolveProc): (s: Stmt)
    ensures ClimbsFrom(s, Rank(Solve(0)))
  {
    match q
    case SolveOnTab => SolveOnTabCode()
    case ClearAndReload => ClearAndReloadCode()
    case ReadSession => ReadSessionCode()
  }

  function ResidentCode(q: ResidentProc): (s: Stmt)
    ensures ClimbsFrom(s, Rank(Resident))
  {
    match q
    case ResidentSection => ResidentSectionCode()
    case ShutdownLocked => ShutdownLockedCode()
    case CreateTab => CreateTabCode()
    case CloseResident => CloseResidentCode()
    case ReportSuccess => Call(InResident(ResidentSection))
    case StopResidentMode => StopResidentModeCode()
    case IdleReaper => IdleReaperCode()
  }

  function SubmitCode(q: SubmitProc): (s: Stmt)
    ensures ClimbsFrom(s, Rank(LegacySubmit))
  {
    match q
    case RememberLegacyTab => RememberLegacyTabCode()
    case PopLegacyTab => PopLegacyTabCode()
  }

  function PlainCode(q: PlainProc): (s: Stmt)
    ensures ClimbsFrom(s, UNLOCKED)
  {
    match q
    case Quietly => QuietlyCode()
  }
}
