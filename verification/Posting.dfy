/** The loop that posts a callback until it is taken, for any way of choosing the pauses. */
module Posting {
  import opened Boundary

  predicate IsRetryableStatus(code: int) {
    code == 429 || code == 500 || code == 502 || code == 503 || code == 504
  }

  datatype Question = Post | Sleep(ns: int)

  /** What a post comes back with; `draw` is the generator's state then.  An error without a
      response has status 0 and no header. */
  datatype Answer = Answer(error: bool, status: int, retryAfter: string, draw: nat)

  predicate Succeeded(a: Answer) {
    !a.error && 200 <= a.status < 300
  }

  /** A transport error, too many requests, or one of four server errors. */
  predicate WorthRetrying(a: Answer): (worth: bool)
    ensures worth <==> a.error || a.status in {429, 500, 502, 503, 504}
  {
    !Succeeded(a) && (a.error || IsRetryableStatus(a.status))
  }

  function MaxAttempts(maxRetries: int): nat {
    if maxRetries + 1 < 1 then 1 else maxRetries + 1
  }

  /** What has been done after `n` posts that failed in a way worth retrying: each is followed by its pause. */
  ghost function Log(pause: (nat, Answer) -> int, reply: nat -> Answer, n: nat): seq<Question> {
    if n == 0 then [] else Log(pause, reply, n - 1) + [Post, Sleep(pause(n - 1, reply(2 * (n - 1))))]
  }

  lemma {:induction false} LogLength(pause: (nat, Answer) -> int, reply: nat -> Answer, n: nat)
    ensures |Log(pause, reply, n)| == 2 * n
  {
    if n > 0 { LogLength(pause, reply, n - 1); }
  }

  ghost predicate AllWorthRetrying(reply: nat -> Answer, n: nat) {
    n == 0 || (AllWorthRetrying(reply, n - 1) && WorthRetrying(reply(2 * (n - 1))))
  }

  /** A whole run makes between 1 and max(maxRetries + 1, 1) posts, each but the last failed in a way
      worth retrying and followed by its pause; succeeds exactly when the last post was answered 2xx;
      and gives up only at the last attempt or on an answer not worth retrying. */
  ghost predicate PostingRun(maxRetries: int, pause: (nat, Answer) -> int, reply: nat -> Answer, asked: seq<Question>, ok: bool, posts: nat) {
    && 1 <= posts <= MaxAttempts(maxRetries) && asked == Log(pause, reply, posts - 1) + [Post]
    && AllWorthRetrying(reply, posts - 1)
    && (ok <==> var a := reply(2 * (posts - 1)); !a.error && 200 <= a.status <= 299)
    && (!ok ==> posts == MaxAttempts(maxRetries) || !WorthRetrying(reply(2 * (posts - 1))))
  }

  /** The loop.  The `return nil` behind it is never reached. */
  method PostWithRetries(maxRetries: int, pause: (nat, Answer) -> int, o: Outside<Question, Answer>)
    returns (ok: bool, ghost posts: nat)
    requires o.asked == []
    modifies o
    ensures PostingRun(maxRetries, pause, o.reply, o.asked, ok, posts)
  {
    var maxAttempts := maxRetries + 1;
    if maxAttempts < 1 { maxAttempts := 1; }
    posts := 0;
    var attempt := 0;
    while attempt < maxAttempts
      invariant 0 <= attempt < maxAttempts
      invariant o.asked == Log(pause, o.reply, attempt) && AllWorthRetrying(o.reply, attempt)
    {
      LogLength(pause, o.reply, attempt);
      var a := o.Ask(Post);
      posts := attempt + 1;
      if !a.error && a.status >= 200 && a.status < 300 { return true, posts; }
      if attempt == maxAttempts - 1 { return false, posts; }
      if !a.error && !IsRetryableStatus(a.status) { return false, posts; }
      var _ := o.Ask(Sleep(pause(attempt, a)));
      attempt := attempt + 1;
    }
    assert false;
    ok := true;
  }

  lemma {:induction false} AllAreWorthRetrying(reply: nat -> Answer, n: nat, k: nat)
    requires AllWorthRetrying(reply, n) && k < n
    ensures reply(2 * k).error || reply(2 * k).status in {429, 500, 502, 503, 504}
  {
    if k < n - 1 { AllAreWorthRetrying(reply, n - 1, k); }
  }

  /** A whole run in plain numbers: posts and sleeps alternate, at most max(maxRetries + 1, 1) posts;
      every post but the last failed with an error or with 429, 500, 502, 503 or 504; a run that gave
      up had no attempt left or another status. */
  lemma RunMeans(maxRetries: int, pause: (nat, Answer) -> int, reply: nat -> Answer, asked: seq<Question>, ok: bool, posts: nat, k: nat)
    requires PostingRun(maxRetries, pause, reply, asked, ok, posts) && k < posts
    ensures |asked| == 2 * posts - 1 && asked[2 * k] == Post && (posts == 1 || posts <= maxRetries + 1)
    ensures k + 1 < posts ==>
              && asked[2 * k + 1] == Sleep(pause(k, reply(2 * k)))
              && (reply(2 * k).error || reply(2 * k).status in {429, 500, 502, 503, 504})
    ensures var last := reply(2 * (posts - 1));
            !ok ==> posts > maxRetries || (!last.error && last.status !in {429, 500, 502, 503, 504})
  {
    LogLength(pause, reply, posts - 1);
    if k + 1 < posts {
      LogAt(pause, reply, posts - 1, k);
      AllAreWorthRetrying(reply, posts - 1, k);
    }
  }

  lemma {:induction false} WorthRetryingBefore(reply: nat -> Answer, m: nat, n: nat)
    requires AllWorthRetrying(reply, n)
    ensures m <= n ==> AllWorthRetrying(reply, m)
  {
    if m < n { WorthRetryingBefore(reply, m, n - 1); }
  }

  lemma {:induction false} LogAt(pause: (nat, Answer) -> int, reply: nat -> Answer, n: nat, k: nat)
    requires k < n
    ensures 2 * k + 1 < |Log(pause, reply, n)| && Log(pause, reply, n)[2 * k] == Post
    ensures Log(pause, reply, n)[2 * k + 1] == Sleep(pause(k, reply(2 * k)))
  {
    LogLength(pause, reply, n - 1);
    if k < n - 1 { LogAt(pause, reply, n - 1, k); }
  }

  /** A run goes on as long as it may: when posts 0 to k fail in a way worth retrying and a retry is
      left, it makes them all and sleeps for the pause of attempt k. */
  lemma PauseIsAsked(maxRetries: int, pause: (nat, Answer) -> int, reply: nat -> Answer, asked: seq<Question>, ok: bool, posts: nat, k: nat)
    requires PostingRun(maxRetries, pause, reply, asked, ok, posts) && k < maxRetries && AllWorthRetrying(reply, k + 1)
    ensures k + 1 < posts && 2 * k + 1 < |asked| && asked[2 * k] == Post && asked[2 * k + 1] == Sleep(pause(k, reply(2 * k)))
  {
    WorthRetryingBefore(reply, posts, k + 1);
    LogAt(pause, reply, posts - 1, k);
  }
}
