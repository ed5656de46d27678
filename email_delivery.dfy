/**
 * Delivery of the prediction e-mail (email_functions/email_delivery.py): the
 * bounded retry loop of `send_email` and the batch of `send_email_to_user`
 * over one SMTP connection.
 *
 * The SMTP server is a script: `server(k)` is what the k-th attempt made on a
 * connection (one `send_message` followed by one `noop()`) comes to.
 */
module EmailDelivery {
  import opened Wrappers

  /** What one attempt comes to. */
  datatype Attempt =
    | Status(code: int)  // both calls returned and `noop()` answered `code`
    | SmtpFailure        // an `smtplib.SMTPException` from either call
    | SocketFailure      // a `socket.gaierror` from either call
    | OtherFailure       // any other exception from either call

  /** The `noop()` status that confirms delivery. */
  const OkStatus: int := 250
  /** `max_retries` when `send_email_to_user` calls `send_email`. */
  const DefaultMaxRetries: int := 3
  /** Seconds slept after an `SMTPException`. */
  const RetryDelaySeconds: nat := 2

  /** An attempt after which `send_email` tries again: a non-250 status or an `SMTPException`. */
  predicate Retryable(a: Attempt)
  {
    (a.Status? && a.code != OkStatus) || a.SmtpFailure?
  }

  /** The MIME message `send_email` builds. */
  datatype Mail = Mail(body: string, sender: string, to: string, subject: string)

  function ComposeMail(message: string, email: string, firstName: string, username: string): Mail
  {
    Mail(message + "\n\nStay cool,\nBlizzard", username, email, firstName + ", your snow day prediction is here...")
  }

  function Repeat<T>(x: T, n: nat): seq<T>
  {
    seq(n, _ => x)
  }

  /** An open SMTP connection, logged in, backed by a scripted server. */
  class SmtpConnection {
    /** The outcome of the k-th attempt made on this connection. */
    const server: nat -> Attempt
    /** Attempts made so far (calls of `send_message`). */
    var attempts: nat
    /** Every message handed to `send_message`, in order. */
    var sent: seq<Mail>
    /** Whether `quit()` has been called. */
    var closed: bool

    /** What `create_smtp_connection` returns once it has connected and logged in. */
    constructor (server: nat -> Attempt)
      ensures this.server == server && attempts == 0 && sent == [] && !closed
    {
      this.server := server;
      attempts := 0;
      sent := [];
      closed := false;
    }

    /** `send_message(msg)` followed by `noop()`. */
    method SendAndProbe(msg: Mail) returns (outcome: Attempt)
      modifies this
      ensures outcome == server(old(attempts))
      ensures attempts == old(attempts) + 1 && sent == old(sent) + [msg] && closed == old(closed)
    {
      outcome := server(attempts);
      attempts := attempts + 1;
      sent := sent + [msg];
    }

    /** `close_smtp_connection`: `quit()`. */
    method Quit()
      modifies this
      ensures closed && attempts == old(attempts) && sent == old(sent)
    {
      closed := true;
    }
  }

  /** How the retry loop ended. */
  datatype Ending =
    | Delivered              // a `noop()` answered 250 and the loop broke
    | Exhausted              // the loop condition `retries < max_retries` became false
    | Escaped(fault: Attempt)  // an exception `send_email` does not catch left it

  /** The effect of one `send_email` call: attempts made, final `retries`, sleeps, and how it ended. */
  datatype RetryRun = RetryRun(attempts: nat, retries: int, sleeps: nat, ending: Ending)

  /** The retry loop of `send_email`, entered with counter `retries`, the next attempt being number `next`. */
  function RetryLoop(server: nat -> Attempt, next: nat, retries: int, maxRetries: int): RetryRun
    decreases if retries < maxRetries then maxRetries - retries else 0
  {
    if retries >= maxRetries then RetryRun(0, retries, 0, Exhausted)
    else
      var outcome := server(next);
      if outcome == Status(OkStatus) then RetryRun(1, retries, 0, Delivered)
      else if Retryable(outcome) then
        var r := RetryLoop(server, next + 1, retries + 1, maxRetries);
        r.(attempts := r.attempts + 1, sleeps := r.sleeps + (if outcome.SmtpFailure? then 1 else 0))
      else RetryRun(1, retries, 0, Escaped(outcome))
  }

  /** Whether `send_email` logs "Delivery failed ... after ... retries": the loop ran out and `retries == max_retries`. */
  predicate ErrorLogged(run: RetryRun, maxRetries: int)
  {
    run.ending == Exhausted && run.retries == maxRetries
  }

  /** Observable outcome of one `send_email` call besides the connection. */
  datatype Delivery = Delivery(retries: int, sleptSeconds: nat, errorLogged: bool, ending: Ending)

  /** `send_email`: compose the message, then retry until a 250, an uncaught exception, or `max_retries` failures. */
  method SendEmail(conn: SmtpConnection, message: string, email: string, firstName: string,
                   username: string, maxRetries: int) returns (d: Delivery)
    modifies conn
    ensures var run := RetryLoop(conn.server, old(conn.attempts), 0, maxRetries);
      && conn.attempts == old(conn.attempts) + run.attempts
      && conn.sent == old(conn.sent) + Repeat(ComposeMail(message, email, firstName, username), run.attempts)
      && conn.closed == old(conn.closed)
      && d == Delivery(run.retries, RetryDelaySeconds * run.sleeps, ErrorLogged(run, maxRetries), run.ending)
  {
    var recipient := email;
    var msg := ComposeMail(message, recipient, firstName, username);
    ghost var start := conn.attempts;
    ghost var whole := RetryLoop(conn.server, start, 0, maxRetries);
    var retries := 0;
    var slept := 0;
    var ending := Exhausted;
    while retries < maxRetries
      invariant retries >= 0 && conn.attempts == start + retries
      invariant conn.sent == old(conn.sent) + Repeat(msg, retries) && conn.closed == old(conn.closed)
      invariant var rest := RetryLoop(conn.server, conn.attempts, retries, maxRetries);
        && whole.attempts == retries + rest.attempts
        && whole.retries == rest.retries
        && RetryDelaySeconds * whole.sleeps == slept + RetryDelaySeconds * rest.sleeps
        && whole.ending == rest.ending
      decreases maxRetries - retries
    {
      var outcome := conn.SendAndProbe(msg);
      match outcome {
        case Status(code) =>
          if code == OkStatus {
            ending := Delivered;
            break;
          }
          retries := retries + 1;
        case SmtpFailure =>
          retries := retries + 1;
          slept := slept + RetryDelaySeconds;
        case _ =>
          d := Delivery(retries, slept, false, Escaped(outcome));
          return;
      }
    }
    d := Delivery(retries, slept, ending == Exhausted && retries == maxRetries, ending);
  }

  function Max(a: int, b: int): int
  {
    if a < b then b else a
  }

  /** The outcome of attempt number `next + j`: the j-th attempt of a loop that starts at attempt `next`. */
  function Nth(server: nat -> Attempt, next: nat, j: nat): Attempt
  {
    server(next + j)
  }

  /** `send_message` is called at most `max_retries - retries` times, and at least once while the loop may run. */
  lemma {:induction false} RetryAttemptsBounded(server: nat -> Attempt, next: nat, retries: int, maxRetries: int)
    ensures RetryLoop(server, next, retries, maxRetries).attempts <= Max(maxRetries - retries, 0)
    ensures retries < maxRetries ==> RetryLoop(server, next, retries, maxRetries).attempts >= 1
    decreases if retries < maxRetries then maxRetries - retries else 0
  {
    if retries < maxRetries && Retryable(server(next)) && server(next) != Status(OkStatus) {
      RetryAttemptsBounded(server, next + 1, retries + 1, maxRetries);
    }
  }

  /**
   * Every attempt but the last was retried; delivery means the last attempt
   * was the first to answer 250, and each retried attempt added one to `retries`.
   */
  lemma {:induction false} RetryStopsAtFirstSuccess(server: nat -> Attempt, next: nat, retries: int, maxRetries: int)
    ensures var run := RetryLoop(server, next, retries, maxRetries);
      forall j :: 0 <= j < run.attempts - 1 ==> Retryable(Nth(server, next, j))
    ensures var run := RetryLoop(server, next, retries, maxRetries);
      run.ending == Delivered <==>
        run.attempts >= 1 && Nth(server, next, run.attempts - 1) == Status(OkStatus)
    ensures var run := RetryLoop(server, next, retries, maxRetries);
      run.ending == Delivered ==> run.retries == retries + run.attempts - 1
    decreases if retries < maxRetries then maxRetries - retries else 0
  {
    var run := RetryLoop(server, next, retries, maxRetries);
    if retries < maxRetries && Retryable(server(next)) {
      RetryStopsAtFirstSuccess(server, next + 1, retries + 1, maxRetries);
      RetryExhaustedAllFailed(server, next + 1, retries + 1, maxRetries);
      var rest := RetryLoop(server, next + 1, retries + 1, maxRetries);
      forall j | 0 <= j < run.attempts - 1
        ensures Retryable(Nth(server, next, j))
      {
        if j > 0 {
          assert Nth(server, next, j) == Nth(server, next + 1, j - 1);
        }
      }
      if rest.attempts >= 1 {
        assert Nth(server, next, run.attempts - 1) == Nth(server, next + 1, rest.attempts - 1);
      }
    }
  }

  /** An exception other than `SMTPException` is not retried: it leaves the loop at the attempt that raised it. */
  lemma {:induction false} RetryEscapes(server: nat -> Attempt, next: nat, retries: int, maxRetries: int)
    ensures var run := RetryLoop(server, next, retries, maxRetries);
      run.ending.Escaped? <==>
        run.attempts >= 1 && (Nth(server, next, run.attempts - 1).SocketFailure? || Nth(server, next, run.attempts - 1).OtherFailure?)
    ensures var run := RetryLoop(server, next, retries, maxRetries);
      run.ending.Escaped? ==> run.ending.fault == Nth(server, next, run.attempts - 1) && run.retries == retries + run.attempts - 1
    decreases if retries < maxRetries then maxRetries - retries else 0
  {
    if retries < maxRetries && Retryable(server(next)) {
      RetryEscapes(server, next + 1, retries + 1, maxRetries);
      RetryExhaustedAllFailed(server, next + 1, retries + 1, maxRetries);
      var rest := RetryLoop(server, next + 1, retries + 1, maxRetries);
      if rest.attempts >= 1 {
        assert Nth(server, next + 1, rest.attempts - 1) == Nth(server, next, rest.attempts);
      }
    }
  }

  /** When the loop runs out, every attempt failed retryably and `retries` has reached `max_retries` (or was already past it). */
  lemma {:induction false} RetryExhaustedAllFailed(server: nat -> Attempt, next: nat, retries: int, maxRetries: int)
    ensures var run := RetryLoop(server, next, retries, maxRetries);
      run.ending == Exhausted ==>
        && run.attempts == Max(maxRetries - retries, 0)
        && run.retries == Max(maxRetries, retries)
        && forall j :: 0 <= j < run.attempts ==> Retryable(Nth(server, next, j))
    decreases if retries < maxRetries then maxRetries - retries else 0
  {
    var run := RetryLoop(server, next, retries, maxRetries);
    if retries < maxRetries && Retryable(server(next)) && server(next) != Status(OkStatus) {
      RetryExhaustedAllFailed(server, next + 1, retries + 1, maxRetries);
      if run.ending == Exhausted {
        forall j | 0 <= j < run.attempts
          ensures Retryable(Nth(server, next, j))
        {
          if j > 0 {
            assert Nth(server, next, j) == Nth(server, next + 1, j - 1);
          }
        }
      }
    }
  }

  /** The number of `SMTPException`s among the `k` attempts from number `next` on. */
  function SmtpFailures(server: nat -> Attempt, next: nat, k: nat): nat
    decreases k
  {
    if k == 0 then 0 else (if server(next).SmtpFailure? then 1 else 0) + SmtpFailures(server, next + 1, k - 1)
  }

  /** Only the `SMTPException` path sleeps: one sleep per such attempt, none for a non-250 status. */
  lemma {:induction false} RetrySleeps(server: nat -> Attempt, next: nat, retries: int, maxRetries: int)
    ensures var run := RetryLoop(server, next, retries, maxRetries);
      run.sleeps == SmtpFailures(server, next, run.attempts)
    decreases if retries < maxRetries then maxRetries - retries else 0
  {
    if retries < maxRetries && Retryable(server(next)) && server(next) != Status(OkStatus) {
      RetrySleeps(server, next + 1, retries + 1, maxRetries);
    }
  }

  /**
   * `send_email` logs its failure error exactly when `max_retries` is not
   * negative and each of the first `max_retries` attempts failed retryably
   * (with `max_retries == 0`: nothing is sent and the error is still logged).
   */
  lemma ErrorLoggedIffAllFailed(server: nat -> Attempt, next: nat, maxRetries: int)
    ensures ErrorLogged(RetryLoop(server, next, 0, maxRetries), maxRetries) <==>
      maxRetries >= 0 && forall j :: 0 <= j < maxRetries ==> Retryable(Nth(server, next, j))
  {
    RetryExhaustedAllFailed(server, next, 0, maxRetries);
    if maxRetries >= 0 && forall j :: 0 <= j < maxRetries ==> Retryable(Nth(server, next, j)) {
      AllFailedExhausts(server, next, 0, maxRetries);
    }
  }

  lemma {:induction false} AllFailedExhausts(server: nat -> Attempt, next: nat, retries: int, maxRetries: int)
    requires retries <= maxRetries
    requires forall j :: 0 <= j < maxRetries - retries ==> Retryable(Nth(server, next, j))
    ensures RetryLoop(server, next, retries, maxRetries).ending == Exhausted
    ensures RetryLoop(server, next, retries, maxRetries).retries == maxRetries
    decreases maxRetries - retries
  {
    if retries < maxRetries {
      assert Retryable(Nth(server, next, 0));
      var following := next + 1;
      forall j | 0 <= j < maxRetries - (retries + 1)
        ensures Retryable(Nth(server, following, j))
      {
        assert Nth(server, following, j) == Nth(server, next, j + 1);
      }
      AllFailedExhausts(server, next + 1, retries + 1, maxRetries);
    }
  }

  /** One entry of the `email_addresses` dict handed to `send_email_to_user`: the address and its first name. */
  datatype Recipient = Recipient(email: string, firstName: string)

  /** How `create_smtp_connection` (connect, `starttls`, `login`) ends. */
  datatype Setup = Connected | SetupSmtpError | SetupSocketError | SetupOtherError

  /** How `send_email_to_user` ends. */
  datatype BatchEnd =
    | Completed          // every recipient visited, then the connection closed
    | SmtpErrorLogged    // an `SMTPException` escaped connection setup: logged, nothing sent
    | SocketErrorLogged  // a `socket.gaierror` escaped setup or a recipient: logged, the rest skipped, no close
    | Propagated         // any other exception: it leaves `send_email_to_user`, no close

  /**
   * The batch from recipient `i` on: `order[k]` is the index of the recipient
   * that the k-th message sent was for; `escaped` the exception that ended it early.
   */
  datatype BatchRun = BatchRun(order: seq<nat>, sent: seq<Mail>, escaped: Option<Attempt>)

  /** The loop of `send_email_to_user` from recipient `i` on, with attempt number `next` coming next on the connection. */
  function BatchFrom(server: nat -> Attempt, next: nat, recipients: seq<Recipient>, i: nat,
                     message: string, username: string): BatchRun
    requires i <= |recipients|
    decreases |recipients| - i
  {
    if i == |recipients| then BatchRun([], [], None)
    else
      var run := RetryLoop(server, next, 0, DefaultMaxRetries);
      var mail := ComposeMail(message, recipients[i].email, recipients[i].firstName, username);
      if run.ending.Escaped? then
        BatchRun(Repeat(i, run.attempts), Repeat(mail, run.attempts), Some(run.ending.fault))
      else
        var rest := BatchFrom(server, next + run.attempts, recipients, i + 1, message, username);
        BatchRun(Repeat(i, run.attempts) + rest.order, Repeat(mail, run.attempts) + rest.sent, rest.escaped)
  }

  /** `send_email_to_user`: open one connection, call `send_email` per recipient in order, then close it once. */
  method SendEmailToUser(server: nat -> Attempt, setup: Setup, recipients: seq<Recipient>,
                         message: string, username: string) returns (conn: SmtpConnection?, end: BatchEnd)
    ensures setup != Connected ==> conn == null
    ensures setup == SetupSmtpError ==> end == SmtpErrorLogged
    ensures setup == SetupSocketError ==> end == SocketErrorLogged
    ensures setup == SetupOtherError ==> end == Propagated
    ensures setup == Connected ==> conn != null && fresh(conn)
    ensures setup == Connected ==> (
      var b := BatchFrom(server, 0, recipients, 0, message, username);
      && conn.sent == b.sent
      && conn.attempts == |b.sent|
      && conn.closed == b.escaped.None?
      && end == match b.escaped
                case None => Completed
                case Some(fault) => if fault.SocketFailure? then SocketErrorLogged else Propagated)
  {
    if setup != Connected {
      conn := null;
      end := match setup
        case SetupSmtpError => SmtpErrorLogged
        case SetupSocketError => SocketErrorLogged
        case _ => Propagated;
      return;
    }
    conn := new SmtpConnection(server);
    var escaped := SendToEach(conn, recipients, message, username);
    match escaped {
      case None =>
        conn.Quit();
        end := Completed;
      case Some(fault) =>
        end := if fault.SocketFailure? then SocketErrorLogged else Propagated;
    }
  }

  /** The `for email in email_addresses` loop over a fresh connection: stops at the first exception `send_email` lets out. */
  method SendToEach(conn: SmtpConnection, recipients: seq<Recipient>, message: string, username: string)
    returns (escaped: Option<Attempt>)
    requires conn.attempts == 0 && conn.sent == [] && !conn.closed
    modifies conn
    ensures var b := BatchFrom(conn.server, 0, recipients, 0, message, username);
      conn.sent == b.sent && conn.attempts == |b.sent| && !conn.closed && escaped == b.escaped
  {
    ghost var whole := BatchFrom(conn.server, 0, recipients, 0, message, username);
    var i := 0;
    while i < |recipients|
      invariant 0 <= i <= |recipients|
      invariant !conn.closed && conn.attempts == |conn.sent|
      invariant var rest := BatchFrom(conn.server, conn.attempts, recipients, i, message, username);
        whole.sent == conn.sent + rest.sent && whole.escaped == rest.escaped
    {
      var stop := SendToRecipient(conn, recipients, i, message, username);
      if stop.Some? {
        return stop;
      }
      i := i + 1;
    }
    escaped := None;
  }

  /** The body of the batch loop: `send_email(smtp_connection, message, email, email_addresses[email], username)`. */
  method SendToRecipient(conn: SmtpConnection, recipients: seq<Recipient>, i: nat, message: string, username: string)
    returns (stop: Option<Attempt>)
    requires i < |recipients|
    modifies conn
    ensures conn.closed == old(conn.closed) && conn.attempts == old(conn.attempts) + |conn.sent| - |old(conn.sent)|
    ensures var here := BatchFrom(conn.server, old(conn.attempts), recipients, i, message, username);
      var rest := BatchFrom(conn.server, conn.attempts, recipients, i + 1, message, username);
      && (stop.Some? ==> conn.sent == old(conn.sent) + here.sent && stop == here.escaped)
      && (stop.None? ==> old(conn.sent) + here.sent == conn.sent + rest.sent && here.escaped == rest.escaped)
  {
    var recipient := recipients[i];
    ghost var next := conn.attempts;
    ghost var before := conn.sent;
    var d := SendEmail(conn, message, recipient.email, recipient.firstName, username, DefaultMaxRetries);
    SentAfterRecipient(conn.server, next, recipients, i, message, username, before, conn.sent, conn.attempts);
    stop := if d.ending.Escaped? then Some(d.ending.fault) else None;
  }

  /**
   * One call of `send_email` against the batch from recipient `i` on: `after`
   * is the sent list it leaves and `last` the number of the next attempt.
   */
  lemma SentAfterRecipient(server: nat -> Attempt, next: nat, recipients: seq<Recipient>, i: nat,
                           message: string, username: string, before: seq<Mail>, after: seq<Mail>, last: nat)
    requires i < |recipients|
    requires var run := RetryLoop(server, next, 0, DefaultMaxRetries);
      && last == next + run.attempts
      && after == before + Repeat(ComposeMail(message, recipients[i].email, recipients[i].firstName, username), run.attempts)
    ensures var run := RetryLoop(server, next, 0, DefaultMaxRetries);
      var here := BatchFrom(server, next, recipients, i, message, username);
      var rest := BatchFrom(server, last, recipients, i + 1, message, username);
      && (run.ending.Escaped? ==> after == before + here.sent && Some(run.ending.fault) == here.escaped)
      && (!run.ending.Escaped? ==> before + here.sent == after + rest.sent && here.escaped == rest.escaped)
  {
    var run := RetryLoop(server, next, 0, DefaultMaxRetries);
    var mails := Repeat(ComposeMail(message, recipients[i].email, recipients[i].firstName, username), run.attempts);
    var here := BatchFrom(server, next, recipients, i, message, username);
    var rest := BatchFrom(server, last, recipients, i + 1, message, username);
    BatchUnfold(server, next, recipients, i, message, username, run, here, rest);
    if run.ending.Escaped? {
      assert here.sent == mails;
    } else {
      assert here.sent == mails + rest.sent;
      Regroup(before, mails, rest.sent);
    }
  }

  /**
   * One round of the batch loop: `send_email` for recipient `i`, then the
   * rest of the batch unless an exception left the call.
   */
  lemma BatchUnfold(server: nat -> Attempt, next: nat, recipients: seq<Recipient>, i: nat, message: string, username: string,
                    run: RetryRun, b: BatchRun, rest: BatchRun)
    requires i < |recipients| && run == RetryLoop(server, next, 0, DefaultMaxRetries)
    requires b == BatchFrom(server, next, recipients, i, message, username)
    requires rest == BatchFrom(server, next + run.attempts, recipients, i + 1, message, username)
    ensures var mail := ComposeMail(message, recipients[i].email, recipients[i].firstName, username);
      && (run.ending.Escaped? ==> b == BatchRun(Repeat(i, run.attempts), Repeat(mail, run.attempts), Some(run.ending.fault)))
      && (!run.ending.Escaped? ==> b == BatchRun(Repeat(i, run.attempts) + rest.order, Repeat(mail, run.attempts) + rest.sent, rest.escaped))
  {
  }

  /**
   * Every message of `b` goes to the recipient `order` names, at or after
   * recipient `i`, built from that recipient's address and first name.
   */
  predicate SentAsOrdered(b: BatchRun, recipients: seq<Recipient>, i: nat, message: string, username: string)
  {
    && |b.order| == |b.sent|
    && forall k :: 0 <= k < |b.sent| ==>
         && i <= b.order[k] < |recipients|
         && b.sent[k] == ComposeMail(message, recipients[b.order[k]].email, recipients[b.order[k]].firstName, username)
  }

  /** Every message sent goes to the recipient `order` names, built from that recipient's address and first name. */
  lemma {:induction false} BatchMessages(server: nat -> Attempt, next: nat, recipients: seq<Recipient>, i: nat,
                                         message: string, username: string)
    requires i <= |recipients|
    ensures SentAsOrdered(BatchFrom(server, next, recipients, i, message, username), recipients, i, message, username)
    decreases |recipients| - i
  {
    var b := BatchFrom(server, next, recipients, i, message, username);
    if i == |recipients| {
      assert b.sent == [];
    } else {
      var run := RetryLoop(server, next, 0, DefaultMaxRetries);
      var rest := BatchFrom(server, next + run.attempts, recipients, i + 1, message, username);
      BatchUnfold(server, next, recipients, i, message, username, run, b, rest);
      if run.ending.Escaped? {
        MessagesPrepended(recipients, i, message, username, run.attempts, BatchRun([], [], None), b);
      } else {
        BatchMessages(server, next + run.attempts, recipients, i + 1, message, username);
        MessagesPrepended(recipients, i, message, username, run.attempts, rest, b);
      }
    }
  }

  /** `n` messages to recipient `i` in front of a run that only writes to later recipients. */
  lemma MessagesPrepended(recipients: seq<Recipient>, i: nat, message: string, username: string, n: nat,
                          rest: BatchRun, b: BatchRun)
    requires i < |recipients| && SentAsOrdered(rest, recipients, i + 1, message, username)
    requires var mail := ComposeMail(message, recipients[i].email, recipients[i].firstName, username);
      b.order == Repeat(i, n) + rest.order && b.sent == Repeat(mail, n) + rest.sent
    ensures SentAsOrdered(b, recipients, i, message, username)
  {
    forall k | 0 <= k < |b.sent|
      ensures i <= b.order[k] < |recipients|
      ensures b.sent[k] == ComposeMail(message, recipients[b.order[k]].email, recipients[b.order[k]].firstName, username)
    {
      if k >= n {
        assert b.order[k] == rest.order[k - n] && b.sent[k] == rest.sent[k - n];
      }
    }
  }

  /** Each entry of `order` repeats the one before it or moves on by one. */
  predicate Stepwise(order: seq<nat>)
    decreases |order|
  {
    |order| <= 1 || (order[0] <= order[1] <= order[0] + 1 && Stepwise(order[1..]))
  }

  /** `n >= 1` copies of `i` followed by a stepwise run that starts at `i + 1` are stepwise. */
  lemma {:induction false} RepeatThenStepwise(i: nat, n: nat, tail: seq<nat>)
    requires n >= 1 && Stepwise(tail) && (|tail| > 0 ==> tail[0] == i + 1)
    ensures Stepwise(Repeat(i, n) + tail)
    decreases n
  {
    var o := Repeat(i, n) + tail;
    if n == 1 {
      assert o[1..] == tail;
    } else {
      assert o[1..] == Repeat(i, n - 1) + tail;
      RepeatThenStepwise(i, n - 1, tail);
    }
  }

  /**
   * The recipient indices of a batch from recipient `i` of `count`: present
   * exactly when there is a recipient left, starting at `i`, stepwise, and
   * ending at the last recipient when nothing escaped.
   */
  predicate VisitsInOrder(b: BatchRun, i: nat, count: nat)
  {
    && (i < count <==> |b.order| > 0)
    && (|b.order| > 0 ==> b.order[0] == i)
    && Stepwise(b.order)
    && (b.escaped.None? && |b.order| > 0 ==> b.order[|b.order| - 1] == count - 1)
  }

  /** `n >= 1` visits of recipient `i`, then the rest of the batch in order (unless it stopped), are in order. */
  lemma VisitsThen(b: BatchRun, rest: BatchRun, i: nat, n: nat, count: nat, stopped: bool)
    requires i < count && n >= 1
    requires b.order == Repeat(i, n) + (if stopped then [] else rest.order)
    requires b.escaped.None? ==> !stopped && rest.escaped.None?
    requires !stopped ==> VisitsInOrder(rest, i + 1, count)
    ensures VisitsInOrder(b, i, count)
  {
    var tail: seq<nat> := if stopped then [] else rest.order;
    var o := Repeat(i, n) + tail;
    RepeatThenStepwise(i, n, tail);
    assert o[0] == i;
    if |tail| > 0 {
      assert o[|o| - 1] == tail[|tail| - 1];
    }
  }

  /** A batch whose first recipient's `send_email` lets an exception out visits that recipient only. */
  lemma OrderStopped(server: nat -> Attempt, next: nat, recipients: seq<Recipient>, i: nat,
                     message: string, username: string, run: RetryRun, b: BatchRun)
    requires i < |recipients| && b == BatchFrom(server, next, recipients, i, message, username)
    requires run == RetryLoop(server, next, 0, DefaultMaxRetries) && run.ending.Escaped?
    ensures VisitsInOrder(b, i, |recipients|)
  {
    var rest := BatchFrom(server, next + run.attempts, recipients, i + 1, message, username);
    RetryAttemptsBounded(server, next, 0, DefaultMaxRetries);
    BatchUnfold(server, next, recipients, i, message, username, run, b, rest);
    assert b.order == Repeat(i, run.attempts) + [];
    VisitsThen(b, rest, i, run.attempts, |recipients|, true);
  }

  /** A batch that gets past its first recipient visits it, then the rest of the batch in order. */
  lemma OrderContinues(server: nat -> Attempt, next: nat, recipients: seq<Recipient>, i: nat,
                       message: string, username: string, run: RetryRun, b: BatchRun, rest: BatchRun)
    requires i < |recipients| && b == BatchFrom(server, next, recipients, i, message, username)
    requires run == RetryLoop(server, next, 0, DefaultMaxRetries) && !run.ending.Escaped?
    requires rest == BatchFrom(server, next + run.attempts, recipients, i + 1, message, username)
    requires VisitsInOrder(rest, i + 1, |recipients|)
    ensures VisitsInOrder(b, i, |recipients|)
  {
    RetryAttemptsBounded(server, next, 0, DefaultMaxRetries);
    BatchUnfold(server, next, recipients, i, message, username, run, b, rest);
    assert run.attempts >= 1;
    assert b.order == Repeat(i, run.attempts) + rest.order;
    assert b.escaped.None? ==> rest.escaped.None?;
    VisitsThen(b, rest, i, run.attempts, |recipients|, false);
  }

  /**
   * Recipients are visited in order, none skipped: the recipient index starts
   * at `i`, never goes back and moves on by one; without an escaping exception
   * the last message is for the last recipient.
   */
  lemma {:induction false} BatchOrder(server: nat -> Attempt, next: nat, recipients: seq<Recipient>, i: nat,
                                      message: string, username: string, b: BatchRun)
    requires i <= |recipients| && b == BatchFrom(server, next, recipients, i, message, username)
    ensures VisitsInOrder(b, i, |recipients|)
    decreases |recipients| - i
  {
    if i == |recipients| {
      assert b.order == [];
    } else {
      var run := RetryLoop(server, next, 0, DefaultMaxRetries);
      if run.ending.Escaped? {
        OrderStopped(server, next, recipients, i, message, username, run, b);
      } else {
        var rest := BatchFrom(server, next + run.attempts, recipients, i + 1, message, username);
        BatchOrder(server, next + run.attempts, recipients, i + 1, message, username, rest);
        OrderContinues(server, next, recipients, i, message, username, run, b, rest);
      }
    }
  }

  /**
   * The batch stops early only on an exception `send_email` lets out, which
   * is never an `SMTPException`; each recipient costs at most `max_retries` sends.
   */
  lemma {:induction false} BatchEscapesAndBound(server: nat -> Attempt, next: nat, recipients: seq<Recipient>, i: nat,
                                                message: string, username: string)
    requires i <= |recipients|
    ensures var b := BatchFrom(server, next, recipients, i, message, username);
      && (b.escaped.Some? ==> b.escaped.value.SocketFailure? || b.escaped.value.OtherFailure?)
      && |b.sent| <= DefaultMaxRetries * (|recipients| - i)
    decreases |recipients| - i
  {
    if i < |recipients| {
      var run := RetryLoop(server, next, 0, DefaultMaxRetries);
      RetryAttemptsBounded(server, next, 0, DefaultMaxRetries);
      RetryEscapes(server, next, 0, DefaultMaxRetries);
      if !run.ending.Escaped? {
        BatchEscapesAndBound(server, next + run.attempts, recipients, i + 1, message, username);
      }
    }
  }
}
