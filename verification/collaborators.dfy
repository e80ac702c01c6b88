/** Values exchanged with the two external services: the social-media API the
    engine polls and the chat bot it forwards to. Both services are oracles
    here; only the shapes of their answers are modelled. */
module Collaborators {

  datatype Option<+T> = None | Some(value: T)

  datatype Result<+R, +E> = Success(value: R) | Failure(error: E)

  /** One post as the API returns it: an opaque id and its text. */
  datatype Tweet = Tweet(id: string, text: string)

  /** What the engine distinguishes about a failed call: a rate-limit answer
      (an error whose message mentions 429) or anything else. */
  datatype ErrorKind = RateLimit | OtherError

  /** The answer of the social-media API to a request for an account's
      recent posts (the account-id lookup and the timeline fetch together):
      the newest-first list of posts, possibly empty, or an error. */
  datatype FetchReply = Posts(tweets: seq<Tweet>) | FetchFailed(kind: ErrorKind)

  /** The answer of the chat bot to one message: it was accepted, or the
      call raised an error of the given kind. */
  datatype SendReply = Delivered | SendFailed(kind: ErrorKind)

  /** The chat line forwarded for one post of the account named `source`. */
  function Notification(source: string, text: string): string
  {
    "New tweet from " + source + ": " + text
  }

  /** One chat line per post, in the order of the posts. */
  function Notifications(source: string, tweets: seq<Tweet>): (lines: seq<string>)
    ensures |lines| == |tweets|
    ensures forall i :: 0 <= i < |tweets| ==> lines[i] == Notification(source, tweets[i].text)
  {
    if tweets == [] then [] else [Notification(source, tweets[0].text)] + Notifications(source, tweets[1..])
  }

  /** The newest-first list of posts turned oldest-first. */
  function Reverse<T>(s: seq<T>): (r: seq<T>)
    ensures |r| == |s|
  {
    if s == [] then [] else Reverse(s[1..]) + [s[0]]
  }

  lemma {:induction false} ReverseAt<T>(s: seq<T>, k: nat)
    requires k < |s|
    ensures |Reverse(s)| == |s|
    ensures Reverse(s)[k] == s[|s| - 1 - k]
  {
    if k < |s| - 1 {
      ReverseAt(s[1..], k);
    }
  }

  /** Reversing twice gives back the API order. */
  lemma {:induction false} ReverseReverse<T>(s: seq<T>)
    ensures Reverse(Reverse(s)) == s
  {
    forall k | 0 <= k < |s|
      ensures Reverse(Reverse(s))[k] == s[k]
    {
      ReverseAt(Reverse(s), k);
      ReverseAt(s, |s| - 1 - k);
    }
  }
}
