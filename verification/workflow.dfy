/**
 * The payment-approval workflow: a request is submitted at an initial level,
 * approvers at successive levels append steps until it is approved or
 * rejected, and a fully approved payment may then be marked paid.
 */
module Workflow {
  import opened Common
  import opened Domain
  import Text
  import Ledger
  import N = Notifications

  datatype ApprovalStatus = Pending | Approved | Rejected | WaitingNextLevel
  datatype ApprovalType = BankOperation | PettyCash | OtherType
  datatype ApprovalLevel = Treasurer | FinancialDirector | Rector

  /** One decision in the workflow's log. */
  datatype ApprovalStep = ApprovalStep(
    id: string,
    level: ApprovalLevel,
    status: ApprovalStatus,
    approvedBy: string,
    approvedAt: Date,
    comments: string)

  datatype ApprovalWorkflow = ApprovalWorkflow(
    id: string,
    paymentId: string,
    fornecedorId: string,
    fornecedorNome: string,
    referencia: string,
    valor: int,
    tipo: ApprovalType,
    metodo: string,
    descricao: string,
    dataCriacao: Date,
    dataVencimento: Date,
    createdBy: string,
    currentLevel: ApprovalLevel,
    status: ApprovalStatus,
    steps: seq<ApprovalStep>,
    notificationsEnabled: bool)

  /** `getUserApprovalLevel`: the level a signed-in user approves at. */
  function UserLevel(user: Option<User>): (l: Option<ApprovalLevel>)
    ensures user.None? ==> l.None?
    ensures user.Some? ==> (l == Some(Treasurer) <==> user.value.role == Tesoureira)
    ensures user.Some? ==> (l == Some(FinancialDirector) <==> user.value.role in {DirectoraFinanceira, Admin})
    ensures user.Some? ==> (l == Some(Rector) <==> user.value.role == Reitor)
    ensures user.Some? ==> (l.None? <==> user.value.role == RegularUser)
  {
    match user
    case None => None
    case Some(u) =>
      match u.role
      case Tesoureira => Some(Treasurer)
      case DirectoraFinanceira => Some(FinancialDirector)
      case Reitor => Some(Rector)
      case Admin => Some(FinancialDirector)
      case RegularUser => None
  }

  /** `determineInitialLevel`. */
  function InitialLevel(tipo: ApprovalType): (l: ApprovalLevel)
    ensures l == Treasurer <==> tipo == PettyCash
    ensures l != Rector
  {
    if tipo == PettyCash then Treasurer else FinancialDirector
  }

  /** The request form. */
  datatype Request = Request(
    paymentId: string,
    fornecedorId: string,
    fornecedorNome: string,
    referencia: string,
    valor: int,
    tipo: ApprovalType,
    metodo: string,
    descricao: string,
    extra: string,
    dataVencimento: Date,
    notificationsEnabled: bool)

  const ExtraPrefix: string := "\n\nInformações adicionais: "

  /** The stored description: the base text, followed by the additional
      information only when there is some. */
  function Description(base: string, extra: string): (d: string)
    ensures extra == "" ==> d == base
    ensures extra != "" ==> d == base + ExtraPrefix + extra
  {
    base + (if extra != "" then ExtraPrefix + extra else "")
  }

  /** The workflow `handleSubmit` builds. */
  function NewWorkflow(req: Request, username: string, id: string, now: Date): (w: ApprovalWorkflow)
    ensures w.status == Pending && w.steps == [] && w.currentLevel == InitialLevel(req.tipo)
    ensures w.createdBy == username && w.id == id && w.paymentId == req.paymentId && w.tipo == req.tipo
  {
    ApprovalWorkflow(id, req.paymentId, req.fornecedorId, req.fornecedorNome, req.referencia, req.valor,
                     req.tipo, req.metodo, Description(req.descricao, req.extra), now, req.dataVencimento,
                     username, InitialLevel(req.tipo), Pending, [], req.notificationsEnabled)
  }

  /** `handleSubmit`: with no user nothing is written; otherwise the new
      workflow is appended to the stored list, read as empty when absent or unparseable. */
  function Submit(user: Option<User>, stored: Stored<ApprovalWorkflow>, req: Request, id: string, now: Date): (r: Stored<ApprovalWorkflow>)
    ensures user.None? ==> r == stored
    ensures user.Some? ==> r == Parsed(OrEmpty(stored) + [NewWorkflow(req, user.value.username, id, now)])
  {
    if user.None? then stored else Parsed(OrEmpty(stored) + [NewWorkflow(req, user.value.username, id, now)])
  }

  /** Approved or rejected. */
  predicate Terminal(w: ApprovalWorkflow)
  {
    w.status == Approved || w.status == Rejected
  }

  /** `canApprove`. */
  predicate CanApprove(level: Option<ApprovalLevel>, w: ApprovalWorkflow)
  {
    level.Some? && (w.currentLevel == level.value || (level.value == Rector && w.tipo == BankOperation))
  }

  /** The tab filter of the approval list, without its free-text search. */
  predicate InTab(tab: string, level: Option<ApprovalLevel>, w: ApprovalWorkflow)
  {
    if tab == "pendentes" then !Terminal(w) && ((level.Some? && level.value == w.currentLevel) || level == Some(Rector))
    else if tab == "aprovados" then w.status == Approved
    else if tab == "rejeitados" then w.status == Rejected
    else tab == "todos"
  }

  /** Status and level after an approval at `level`. */
  function Route(w: ApprovalWorkflow, level: ApprovalLevel): (r: (ApprovalStatus, ApprovalLevel))
    ensures r.0 == Approved || r.0 == WaitingNextLevel
    ensures level == Treasurer ==> r == (if w.tipo == PettyCash then (Approved, w.currentLevel) else (WaitingNextLevel, w.currentLevel))
    ensures level == FinancialDirector && w.tipo == BankOperation ==> r == (WaitingNextLevel, Rector)
    ensures level == FinancialDirector && w.tipo != BankOperation ==> r == (Approved, w.currentLevel)
    ensures level == Rector ==> r == (Approved, w.currentLevel)
  {
    match level
    case Treasurer => if w.tipo == PettyCash then (Approved, w.currentLevel) else (WaitingNextLevel, w.currentLevel)
    case FinancialDirector => if w.tipo == BankOperation then (WaitingNextLevel, Rector) else (Approved, w.currentLevel)
    case Rector => (Approved, w.currentLevel)
  }

  /** The role name a waiting workflow's next approver holds. */
  function NextLevelRole(level: ApprovalLevel): (s: string)
    ensures level == FinancialDirector ==> s == RoleName(DirectoraFinanceira)
    ensures level == Rector ==> s == RoleName(Reitor)
    ensures level == Treasurer ==> s == RoleName(Tesoureira)
  {
    match level
    case FinancialDirector => "directora_financeira"
    case Rector => "reitor"
    case Treasurer => "tesoureira"
  }

  /** Every workflow with the given one's id replaced by it, the rest kept in place. */
  function ReplaceById(ws: seq<ApprovalWorkflow>, w: ApprovalWorkflow): (r: seq<ApprovalWorkflow>)
    ensures |r| == |ws|
    ensures forall k :: 0 <= k < |ws| ==> r[k] == if ws[k].id == w.id then w else ws[k]
  {
    seq(|ws|, k requires 0 <= k < |ws| => if ws[k].id == w.id then w else ws[k])
  }

  /** The workflow after an approval: routed, with one approved step appended. */
  function Approved1(w: ApprovalWorkflow, level: ApprovalLevel, stepId: string, username: string, now: Date, comment: string): (u: ApprovalWorkflow)
    ensures u.steps == w.steps + [ApprovalStep(stepId, level, Approved, username, now, comment)]
    ensures (u.status, u.currentLevel) == Route(w, level)
    ensures u == w.(status := u.status, currentLevel := u.currentLevel, steps := u.steps)
  {
    var (st, lv) := Route(w, level);
    w.(status := st, currentLevel := lv, steps := w.steps + [ApprovalStep(stepId, level, Approved, username, now, comment)])
  }

  /** What a decision produces: the workflow list, the decided workflow, the
      stored notification list, and whether the mark-paid question is asked. */
  datatype Decision = Decision(
    workflows: seq<ApprovalWorkflow>,
    decided: ApprovalWorkflow,
    notifications: Stored<N.Notification>,
    askMarkPaid: bool)

  /** `handleApprove` by an approver at `level`; the approval dialog is only
      offered on a workflow that is not terminal and that the level may decide. */
  function Approve(ws: seq<ApprovalWorkflow>, w: ApprovalWorkflow, level: ApprovalLevel, username: string,
                   stepId: string, now: Date, comment: string,
                   stored: Stored<N.Notification>, notificationId: string, nowMillis: int): (r: Decision)
    requires !Terminal(w) && CanApprove(Some(level), w)
    ensures r.decided == Approved1(w, level, stepId, username, now, comment)
    ensures r.decided.status != Pending && r.decided.status != Rejected
    ensures |r.decided.steps| == |w.steps| + 1 && r.decided.steps[..|w.steps|] == w.steps
    ensures r.decided.steps[|w.steps|].status == Approved && r.decided.steps[|w.steps|].level == level
    ensures r.workflows == ReplaceById(ws, r.decided)
    ensures forall k :: 0 <= k < |ws| && ws[k].id != w.id ==> r.workflows[k] == ws[k]
    ensures r.askMarkPaid <==> r.decided.status == Approved
    ensures r.decided.status == Approved || !w.notificationsEnabled ==> r.notifications == stored
    ensures r.decided.status == WaitingNextLevel && w.notificationsEnabled ==>
              r.notifications.Parsed? && |r.notifications.items| == |OrEmpty(stored)| + 1
              && r.notifications.items[..|OrEmpty(stored)|] == OrEmpty(stored)
              && r.notifications.items[|OrEmpty(stored)|].targetRole == Some(NextLevelRole(r.decided.currentLevel))
              && r.notifications.items[|OrEmpty(stored)|].kind == Some(N.Approval)
  {
    var u := Approved1(w, level, stepId, username, now, comment);
    var notes :=
      if u.status == WaitingNextLevel && u.notificationsEnabled then
        Parsed(N.Send(stored, notificationId, "Aprovação Pendente",
                      "Um pagamento aguarda sua aprovação: " + w.referencia + " para " + w.fornecedorNome + ".",
                      Some(NextLevelRole(u.currentLevel)), N.Approval, nowMillis))
      else stored;
    Decision(ReplaceById(ws, u), u, notes, u.status == Approved)
  }

  /** `handleReject`, offered under the same condition as approval. */
  function Reject(ws: seq<ApprovalWorkflow>, w: ApprovalWorkflow, level: ApprovalLevel, username: string,
                  stepId: string, now: Date, comment: string,
                  stored: Stored<N.Notification>, notificationId: string, nowMillis: int): (r: Decision)
    requires !Terminal(w) && CanApprove(Some(level), w)
    ensures r.decided == w.(status := Rejected, steps := w.steps + [ApprovalStep(stepId, level, Rejected, username, now, comment)])
    ensures r.decided.currentLevel == w.currentLevel && Terminal(r.decided)
    ensures |r.decided.steps| == |w.steps| + 1 && r.decided.steps[..|w.steps|] == w.steps
    ensures r.workflows == ReplaceById(ws, r.decided)
    ensures forall k :: 0 <= k < |ws| && ws[k].id != w.id ==> r.workflows[k] == ws[k]
    ensures !r.askMarkPaid
    ensures !w.notificationsEnabled ==> r.notifications == stored
    ensures w.notificationsEnabled ==>
              r.notifications.Parsed? && |r.notifications.items| == |OrEmpty(stored)| + 1
              && r.notifications.items[..|OrEmpty(stored)|] == OrEmpty(stored)
              && r.notifications.items[|OrEmpty(stored)|].id == notificationId
              && r.notifications.items[|OrEmpty(stored)|].title == "Pagamento Rejeitado"
              && !r.notifications.items[|OrEmpty(stored)|].read
              && r.notifications.items[|OrEmpty(stored)|].targetRole == Some("all")
              && r.notifications.items[|OrEmpty(stored)|].kind == Some(N.Warning)
  {
    var u := w.(status := Rejected, steps := w.steps + [ApprovalStep(stepId, level, Rejected, username, now, comment)]);
    var notes :=
      if u.notificationsEnabled then
        Parsed(N.Send(stored, notificationId, "Pagamento Rejeitado",
                      "O pagamento " + w.referencia + " para " + w.fornecedorNome + " foi rejeitado.",
                      Some("all"), N.Warning, nowMillis))
      else stored;
    Decision(ReplaceById(ws, u), u, notes, false)
  }

  /** `toggleNotifications`: every workflow with that id becomes the given one
      with the flag flipped; nothing else changes. */
  function ToggleNotifications(ws: seq<ApprovalWorkflow>, w: ApprovalWorkflow): (r: seq<ApprovalWorkflow>)
    ensures |r| == |ws|
    ensures forall k :: 0 <= k < |ws| && ws[k].id != w.id ==> r[k] == ws[k]
    ensures forall k :: 0 <= k < |ws| && ws[k].id == w.id ==>
              r[k].notificationsEnabled == !w.notificationsEnabled && r[k].(notificationsEnabled := w.notificationsEnabled) == w
  {
    ReplaceById(ws, w.(notificationsEnabled := !w.notificationsEnabled))
  }

  /** `handleChangePaymentStatus` after an approval: on "yes", the payment the
      workflow names, if found, is marked paid today with a note appended; on
      "no", the suppliers are unchanged. In both cases, unless "yes" found no
      payment, a workflow with notifications on appends one unread info
      notification for everyone. */
  function ChangePaymentStatus(fs: seq<Fornecedor>, w: ApprovalWorkflow, markPaid: bool,
                               actor: Ledger.Actor, entryId: string, now: Date, today: string,
                               stored: Stored<N.Notification>, notificationId: string, nowMillis: int)
    : (r: (seq<Fornecedor>, Stored<N.Notification>))
    ensures !markPaid ==> r.0 == fs
    ensures markPaid && PaymentOf(fs, w).None? ==> r == (fs, stored)
    ensures markPaid && PaymentOf(fs, w).Some? ==>
              r.0 == Ledger.AtualizarPagamento(fs, w.fornecedorId, MarkedByWorkflow(PaymentOf(fs, w).value, now, today), actor, entryId, now)
    ensures !w.notificationsEnabled ==> r.1 == stored
    ensures w.notificationsEnabled && (!markPaid || PaymentOf(fs, w).Some?) ==>
              r.1.Parsed? && |r.1.items| == |OrEmpty(stored)| + 1
              && r.1.items[..|OrEmpty(stored)|] == OrEmpty(stored)
              && r.1.items[|OrEmpty(stored)|].id == notificationId
              && r.1.items[|OrEmpty(stored)|].title
                 == (if markPaid then "Pagamento Aprovado e Marcado como Pago" else "Pagamento Aprovado")
              && !r.1.items[|OrEmpty(stored)|].read
              && r.1.items[|OrEmpty(stored)|].targetRole == Some("all")
              && r.1.items[|OrEmpty(stored)|].kind == Some(N.Info)
  {
    if markPaid then
      match PaymentOf(fs, w)
      case None => (fs, stored)
      case Some(p) =>
        var fs2 := Ledger.AtualizarPagamento(fs, w.fornecedorId, MarkedByWorkflow(p, now, today), actor, entryId, now);
        var notes :=
          if w.notificationsEnabled then
            Parsed(N.Send(stored, notificationId, "Pagamento Aprovado e Marcado como Pago",
                          "O pagamento " + w.referencia + " para " + w.fornecedorNome + " foi aprovado e marcado como pago.",
                          Some("all"), N.Info, nowMillis))
          else stored;
        (fs2, notes)
    else
      var notes :=
        if w.notificationsEnabled then
          Parsed(N.Send(stored, notificationId, "Pagamento Aprovado",
                        "O pagamento " + w.referencia + " para " + w.fornecedorNome + " foi aprovado, mas o status não foi alterado.",
                        Some("all"), N.Info, nowMillis))
        else stored;
      (fs, notes)
  }

  /** Position `i` holds the first supplier with id `fid`. */
  predicate FirstSupplier(fs: seq<Fornecedor>, fid: string, i: nat)
  {
    i < |fs| && fs[i].id == fid && forall j :: 0 <= j < i ==> fs[j].id != fid
  }

  /** Position `k` holds the first payment with id `pid`. */
  predicate FirstPayment(ps: seq<Pagamento>, pid: string, k: nat)
  {
    k < |ps| && ps[k].id == pid && forall m :: 0 <= m < k ==> ps[m].id != pid
  }

  /** At most one position is the first supplier with a given id. */
  lemma FirstSupplierUnique(fs: seq<Fornecedor>, fid: string, i: nat, i2: nat)
    requires FirstSupplier(fs, fid, i) && FirstSupplier(fs, fid, i2)
    ensures i == i2
  {
  }

  /** The payment a workflow names: in the first supplier with its supplier id,
      the first payment with its payment id. */
  function PaymentOf(fs: seq<Fornecedor>, w: ApprovalWorkflow): (r: Option<Pagamento>)
    ensures r.Some? ==> r.value.id == w.paymentId && exists f :: f in fs && f.id == w.fornecedorId && r.value in f.pagamentos
    ensures r.Some? ==>
              exists i: nat, k: nat :: FirstSupplier(fs, w.fornecedorId, i) && FirstPayment(fs[i].pagamentos, w.paymentId, k)
                && fs[i].pagamentos[k] == r.value
    ensures r.None? <==>
              forall i: nat :: FirstSupplier(fs, w.fornecedorId, i) ==>
                forall p :: p in fs[i].pagamentos ==> p.id != w.paymentId
  {
    match FindFornecedor(fs, w.fornecedorId)
    case None => None
    case Some(f) =>
      var i: nat :| i < |fs| && fs[i] == f && forall j :: 0 <= j < i ==> fs[j].id != w.fornecedorId;
      assert FirstSupplier(fs, w.fornecedorId, i);
      assert forall i2: nat :: FirstSupplier(fs, w.fornecedorId, i2) ==> fs[i2] == f by {
        forall i2: nat | FirstSupplier(fs, w.fornecedorId, i2)
          ensures fs[i2] == f
        {
          FirstSupplierUnique(fs, w.fornecedorId, i, i2);
        }
      }
      var r := FindPagamento(f.pagamentos, w.paymentId);
      if r.Some? then
        var k: nat :| k < |f.pagamentos| && f.pagamentos[k] == r.value && forall m :: 0 <= m < k ==> f.pagamentos[m].id != w.paymentId;
        assert FirstPayment(fs[i].pagamentos, w.paymentId, k);
        r
      else r
  }

  /** The payment as the workflow marks it paid. */
  function MarkedByWorkflow(p: Pagamento, now: Date, today: string): (q: Pagamento)
    ensures q.estado == Pago && q.dataPagamento == Some(now)
    ensures q.observacoes == Text.AppendNote(p.observacoes, "Aprovado por workflow em " + today)
    ensures q == p.(estado := Pago, dataPagamento := Some(now), observacoes := q.observacoes)
  {
    p.(estado := Pago, dataPagamento := Some(now), observacoes := Text.AppendNote(p.observacoes, "Aprovado por workflow em " + today))
  }

  // ---------------------------------------------------------------- invariant

  /** The shape every workflow reachable from a submission keeps: petty cash
      stays with the treasurer, other types sit with the financial director or,
      for bank operations only, the rector; a pending workflow has no steps; a
      waiting one is a bank operation passed on to the rector after one step;
      and the log holds at most two steps, all approvals except the last step of
      a rejected workflow, which is a rejection. */
  predicate WellFormed(w: ApprovalWorkflow)
  {
    (w.tipo == PettyCash <==> w.currentLevel == Treasurer)
    && (w.currentLevel == Rector ==> w.tipo == BankOperation)
    && (w.status == Pending ==> w.steps == [])
    && (w.status == WaitingNextLevel ==> w.currentLevel == Rector && |w.steps| == 1)
    && (w.status != Pending && w.status != WaitingNextLevel ==> |w.steps| >= 1)
    && |w.steps| <= 2
    && (forall k :: 0 <= k < |w.steps| ==>
          w.steps[k].status == (if w.status == Rejected && k == |w.steps| - 1 then Rejected else Approved))
  }

  /** A submitted workflow is well formed. */
  lemma SubmitWellFormed(req: Request, username: string, id: string, now: Date)
    ensures WellFormed(NewWorkflow(req, username, id, now))
  {
  }

  /** Approving a well-formed workflow keeps it well formed. */
  lemma ApproveKeepsWellFormed(w: ApprovalWorkflow, level: ApprovalLevel, username: string, stepId: string, now: Date, comment: string)
    requires WellFormed(w) && !Terminal(w) && CanApprove(Some(level), w)
    ensures WellFormed(Approved1(w, level, stepId, username, now, comment))
  {
  }

  /** Rejecting a well-formed workflow keeps it well formed. */
  lemma RejectKeepsWellFormed(ws: seq<ApprovalWorkflow>, w: ApprovalWorkflow, level: ApprovalLevel, username: string, stepId: string,
                              now: Date, comment: string, stored: Stored<N.Notification>, nid: string, millis: int)
    requires WellFormed(w) && !Terminal(w) && CanApprove(Some(level), w)
    ensures WellFormed(Reject(ws, w, level, username, stepId, now, comment, stored, nid, millis).decided)
  {
  }

  /** On a well-formed workflow every approval makes progress: it either
      finishes the workflow or hands it to another level. The treasurer branch
      that would leave a non-petty-cash workflow waiting at the same level is
      unreachable. */
  lemma ApproveMakesProgress(w: ApprovalWorkflow, level: ApprovalLevel, username: string, stepId: string, now: Date, comment: string)
    requires WellFormed(w) && !Terminal(w) && CanApprove(Some(level), w)
    ensures var u := Approved1(w, level, stepId, username, now, comment);
            u.status == Approved || (u.status == WaitingNextLevel && u.currentLevel != w.currentLevel)
  {
  }

  /** The workflow finds exactly the payment at the first matching position:
      the first supplier with its supplier id, and in it the first payment
      with its payment id. */
  lemma PaymentOfAt(fs: seq<Fornecedor>, w: ApprovalWorkflow, i: nat, k: nat)
    requires FirstSupplier(fs, w.fornecedorId, i) && FirstPayment(fs[i].pagamentos, w.paymentId, k)
    ensures PaymentOf(fs, w) == Some(fs[i].pagamentos[k])
  {
    assert fs[i].pagamentos[k] in fs[i].pagamentos;
    var r := PaymentOf(fs, w);
    var i2: nat, k2: nat :| FirstSupplier(fs, w.fornecedorId, i2) && FirstPayment(fs[i2].pagamentos, w.paymentId, k2)
                            && fs[i2].pagamentos[k2] == r.value;
    FirstSupplierUnique(fs, w.fornecedorId, i, i2);
  }

  /** What the update does at one position of its own supplier. */
  lemma UpdateFacts(fs: seq<Fornecedor>, fid: string, q: Pagamento, actor: Ledger.Actor, entryId: string, now: Date, i: nat, k: nat)
    requires i < |fs| && fs[i].id == fid && k < |fs[i].pagamentos| && fs[i].pagamentos[k].id == q.id
    ensures var gs := Ledger.AtualizarPagamento(fs, fid, q, actor, entryId, now);
            |gs| == |fs| && (forall j :: 0 <= j < |fs| ==> gs[j].id == fs[j].id)
            && k < |gs[i].pagamentos| && gs[i].pagamentos[k].(historico := q.historico) == q
            && forall m :: 0 <= m < k ==> gs[i].pagamentos[m].id == fs[i].pagamentos[m].id
  {
    var gs := Ledger.AtualizarPagamento(fs, fid, q, actor, entryId, now);
    assert fs[i] in fs;
    forall m | 0 <= m < k
      ensures gs[i].pagamentos[m].id == fs[i].pagamentos[m].id
    {
    }
  }

  /** Updating the payment a workflow finds, under the workflow's supplier,
      leaves the new record where the workflow finds it. */
  lemma UpdateIsFound(fs: seq<Fornecedor>, w: ApprovalWorkflow, q: Pagamento, actor: Ledger.Actor, entryId: string, now: Date)
    requires PaymentOf(fs, w).Some? && q.id == w.paymentId
    ensures var after := PaymentOf(Ledger.AtualizarPagamento(fs, w.fornecedorId, q, actor, entryId, now), w);
            after.Some? && after.value.(historico := q.historico) == q
  {
    var fid, pid := w.fornecedorId, w.paymentId;
    var i: nat, k: nat :| FirstSupplier(fs, fid, i) && FirstPayment(fs[i].pagamentos, pid, k)
                          && fs[i].pagamentos[k] == PaymentOf(fs, w).value;
    UpdateFacts(fs, fid, q, actor, entryId, now, i, k);
    var gs := Ledger.AtualizarPagamento(fs, fid, q, actor, entryId, now);
    assert FirstSupplier(gs, fid, i);
    assert FirstPayment(gs[i].pagamentos, pid, k);
    PaymentOfAt(Ledger.AtualizarPagamento(fs, fid, q, actor, entryId, now), w, i, k);
  }

  /** Answering "yes" leaves the workflow's payment where the workflow finds
      it, now paid on the given date with the approval note appended; only
      its history differs from what `MarkedByWorkflow` makes of it. */
  lemma MarkPaidIsFound(fs: seq<Fornecedor>, w: ApprovalWorkflow, actor: Ledger.Actor, entryId: string, now: Date, today: string,
                        stored: Stored<N.Notification>, notificationId: string, nowMillis: int)
    requires PaymentOf(fs, w).Some?
    ensures var p := PaymentOf(fs, w).value;
            var after := PaymentOf(ChangePaymentStatus(fs, w, true, actor, entryId, now, today, stored, notificationId, nowMillis).0, w);
            after.Some? && after.value.(historico := p.historico) == MarkedByWorkflow(p, now, today)
  {
    var p := PaymentOf(fs, w).value;
    UpdateIsFound(fs, w, MarkedByWorkflow(p, now, today), actor, entryId, now);
  }

  /** The tabs: "todos" lists everything, a decided workflow is listed under
      exactly one of "aprovados" and "rejeitados", and "pendentes" lists only
      undecided ones. */
  lemma TabsSplit(level: Option<ApprovalLevel>, w: ApprovalWorkflow)
    ensures InTab("todos", level, w)
    ensures Terminal(w) <==> InTab("aprovados", level, w) || InTab("rejeitados", level, w)
    ensures !(InTab("aprovados", level, w) && InTab("rejeitados", level, w))
    ensures InTab("pendentes", level, w) ==> !Terminal(w)
  {
  }

  /** A workflow the approver may decide is listed under "pendentes". */
  lemma DecidableIsInPendingTab(level: Option<ApprovalLevel>, w: ApprovalWorkflow)
    requires !Terminal(w) && CanApprove(level, w)
    ensures InTab("pendentes", level, w)
  {
  }

  /** A rector's approval finishes any bank operation, even one still at the
      financial director. */
  lemma RectorOverride(w: ApprovalWorkflow, username: string, stepId: string, now: Date, comment: string)
    requires !Terminal(w) && w.tipo == BankOperation
    ensures CanApprove(Some(Rector), w)
    ensures Approved1(w, Rector, stepId, username, now, comment).status == Approved
  {
  }

  /** Toggling notifications twice restores the workflow list. */
  lemma ToggleTwice(ws: seq<ApprovalWorkflow>, w: ApprovalWorkflow)
    requires w in ws
    requires forall k :: 0 <= k < |ws| && ws[k].id == w.id ==> ws[k] == w
    ensures ToggleNotifications(ToggleNotifications(ws, w), w.(notificationsEnabled := !w.notificationsEnabled)) == ws
  {
    var once := ToggleNotifications(ws, w);
    var twice := ToggleNotifications(once, w.(notificationsEnabled := !w.notificationsEnabled));
    assert forall k :: 0 <= k < |ws| ==> twice[k] == ws[k];
  }

  /** A bank operation of 15,000: the financial director approves and passes it
      to the rector; the rector approves it; declining to mark it paid leaves
      the suppliers, and so the payment, unchanged. */
  lemma BankOperationScenario(fs: seq<Fornecedor>, req: Request, director: User, rector: User,
                              stored: Stored<N.Notification>, actor: Ledger.Actor, now: Date)
    requires req.tipo == BankOperation && req.valor == 15000 * MinorPerUnit
    requires director.role == DirectoraFinanceira && rector.role == Reitor
    ensures var w0 := NewWorkflow(req, "requester", "w", now);
            var l1 := UserLevel(Some(director)).value;
            CanApprove(Some(l1), w0) && !Terminal(w0)
            && var d1 := Approve([w0], w0, l1, director.username, "s1", now, "", stored, "n1", 0);
               d1.decided.currentLevel == Rector && d1.decided.status == WaitingNextLevel && !d1.askMarkPaid
               && var l2 := UserLevel(Some(rector)).value;
                  CanApprove(Some(l2), d1.decided)
                  && var d2 := Approve(d1.workflows, d1.decided, l2, rector.username, "s2", now, "", d1.notifications, "n2", 0);
                     d2.decided.status == Approved && d2.askMarkPaid && |d2.decided.steps| == 2
                     && ChangePaymentStatus(fs, d2.decided, false, actor, "h", now, "", d2.notifications, "n3", 0).0 == fs
  {
  }
}
