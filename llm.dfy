/**
 * The chat service behind `LLMClient.chat(messages, return_cost_info=True)`
 * (src/llm_client.py), seen from the summarizer: every call sends a list of
 * messages and gets back the reply text and the cost of the call. The
 * service itself is an oracle, a function of the call's position in the
 * session and of the messages; the client keeps the log of the calls made.
 */
module Llm {

  datatype Role = System | User

  /** One `{"role": ..., "content": ...}` message. */
  datatype Message = Message(role: Role, content: string)

  /** What one call returns: the completion text and its cost. */
  datatype Reply = Reply(text: string, cost: int)

  class LlmClient {
    /** The model name the client was built with (`self.model`). */
    const model: string
    /** The reply the service gives to the call with the given position in
        the session and the given messages. */
    const service: (nat, seq<Message>) -> Reply
    /** The messages of every call made so far, in call order. */
    var calls: seq<seq<Message>>

    constructor(model: string, service: (nat, seq<Message>) -> Reply)
      ensures this.model == model && this.service == service
      ensures calls == []
    {
      this.model := model;
      this.service := service;
      calls := [];
    }

    /** `chat(messages, return_cost_info=True)`: one more call in the log,
        answered by the service. */
    method Chat(messages: seq<Message>) returns (text: string, cost: int)
      modifies this
      ensures calls == old(calls) + [messages]
      ensures text == Answer(service, |old(calls)|, messages).text
      ensures cost == Answer(service, |old(calls)|, messages).cost
    {
      var reply := service(|calls|, messages);
      calls := calls + [messages];
      text, cost := reply.text, reply.cost;
    }
  }

  /** The reply the service gives to call number `n` of the session. */
  function Answer(service: (nat, seq<Message>) -> Reply, n: nat, messages: seq<Message>): Reply {
    service(n, messages)
  }

  /** The replies the service gives to `requests` sent one after another,
      the first being call number `start` of the session. */
  function Replies(service: (nat, seq<Message>) -> Reply, start: nat, requests: seq<seq<Message>>): (r: seq<Reply>)
    ensures |r| == |requests|
  {
    if requests == [] then []
    else Replies(service, start, requests[..|requests| - 1]) + [Answer(service, start + |requests| - 1, requests[|requests| - 1])]
  }

  /** The `k`th reply is the service's answer to the `k`th request, sent as
      call number `start + k`. */
  lemma {:induction false} RepliesAt(service: (nat, seq<Message>) -> Reply, start: nat, requests: seq<seq<Message>>, k: nat)
    requires k < |requests|
    ensures Replies(service, start, requests)[k] == Answer(service, start + k, requests[k])
  {
    var n := |requests| - 1;
    if k < n {
      RepliesAt(service, start, requests[..n], k);
    }
  }

  function Texts(replies: seq<Reply>): (r: seq<string>)
    ensures |r| == |replies|
  {
    if replies == [] then [] else Texts(replies[..|replies| - 1]) + [replies[|replies| - 1].text]
  }

  /** The summed cost of the replies. */
  function TotalCost(replies: seq<Reply>): int
  {
    if replies == [] then 0 else TotalCost(replies[..|replies| - 1]) + replies[|replies| - 1].cost
  }

  /** The session went from `before` to `calls` by sending `requests` one
      after another, and `texts` and `cost` are what their replies add up to. */
  predicate Answered(service: (nat, seq<Message>) -> Reply, before: seq<seq<Message>>, calls: seq<seq<Message>>,
                     requests: seq<seq<Message>>, texts: seq<string>, cost: int)
  {
    && calls == before + requests
    && texts == Texts(Replies(service, |before|, requests))
    && cost == TotalCost(Replies(service, |before|, requests))
  }

  /** One more call keeps the account: its request joins the log and its
      reply's text and cost join the totals. */
  lemma {:induction false} AnsweredSnoc(service: (nat, seq<Message>) -> Reply, before: seq<seq<Message>>, calls: seq<seq<Message>>,
                     requests: seq<seq<Message>>, texts: seq<string>, cost: int, q: seq<Message>, text: string, c: int)
    requires Answered(service, before, calls, requests, texts, cost)
    requires text == Answer(service, |calls|, q).text && c == Answer(service, |calls|, q).cost
    ensures Answered(service, before, calls + [q], requests + [q], texts + [text], cost + c)
  {
    var r := Replies(service, |before|, requests + [q]);
    assert (requests + [q])[..|requests|] == requests;
    assert r[..|requests|] == Replies(service, |before|, requests);
  }

  /** Sending `requests` and then one more request `q`: the replies are
      those of `requests` followed by the service's answer to `q`. */
  lemma {:induction false} RepliesSnoc(service: (nat, seq<Message>) -> Reply, start: nat, requests: seq<seq<Message>>, q: seq<Message>)
    ensures Replies(service, start, requests + [q]) == Replies(service, start, requests) + [Answer(service, start + |requests|, q)]
  {
    assert (requests + [q])[..|requests|] == requests;
  }

  /** Replies, texts and costs of two batches sent one after the other. */
  lemma {:induction false} RepliesConcat(service: (nat, seq<Message>) -> Reply, start: nat, r1: seq<seq<Message>>, r2: seq<seq<Message>>)
    ensures Replies(service, start, r1 + r2) == Replies(service, start, r1) + Replies(service, start + |r1|, r2)
  {
    if r2 != [] {
      var r2' := r2[..|r2| - 1];
      var q := r2[|r2| - 1];
      RepliesConcat(service, start, r1, r2');
      assert r1 + r2 == (r1 + r2') + [q];
      RepliesSnoc(service, start, r1 + r2', q);
      RepliesSnoc(service, start + |r1|, r2', q);
      assert r2 == r2' + [q];
    } else {
      assert r1 + r2 == r1;
    }
  }

  lemma {:induction false} TextsConcat(a: seq<Reply>, b: seq<Reply>)
    ensures Texts(a + b) == Texts(a) + Texts(b)
  {
    if b != [] {
      TextsConcat(a, b[..|b| - 1]);
      assert (a + b)[..|a + b| - 1] == a + b[..|b| - 1];
    } else {
      assert a + b == a;
    }
  }

  lemma {:induction false} TotalCostConcat(a: seq<Reply>, b: seq<Reply>)
    ensures TotalCost(a + b) == TotalCost(a) + TotalCost(b)
  {
    if b != [] {
      TotalCostConcat(a, b[..|b| - 1]);
      assert (a + b)[..|a + b| - 1] == a + b[..|b| - 1];
    } else {
      assert a + b == a;
    }
  }

  /** A batch, one call, then another batch: the three cost what they
      cost one by one. */
  lemma {:induction false} CostOfStretch(service: (nat, seq<Message>) -> Reply, start: nat,
                      r1: seq<seq<Message>>, q: seq<Message>, r2: seq<seq<Message>>)
    ensures TotalCost(Replies(service, start, r1 + [q] + r2))
            == TotalCost(Replies(service, start, r1)) + Answer(service, start + |r1|, q).cost
               + TotalCost(Replies(service, start + |r1| + 1, r2))
  {
    var a := Answer(service, start + |r1|, q);
    var R1, R2 := Replies(service, start, r1), Replies(service, start + |r1| + 1, r2);
    var n := |r1 + [q]|;
    assert n == |r1| + 1;
    RepliesConcat(service, start, r1 + [q], r2);
    RepliesSnoc(service, start, r1, q);
    TotalCostConcat(R1 + [a], R2);
    TotalCostSnoc(R1, a);
  }

  lemma {:induction false} TotalCostSnoc(replies: seq<Reply>, a: Reply)
    ensures TotalCost(replies + [a]) == TotalCost(replies) + a.cost
  {
    assert (replies + [a])[..|replies|] == replies;
  }

  /** The same, for the calls a session made after `before`. */
  lemma {:induction false} CostAfter(service: (nat, seq<Message>) -> Reply, before: seq<seq<Message>>,
                  r1: seq<seq<Message>>, q: seq<Message>, r2: seq<seq<Message>>)
    ensures TotalCost(Replies(service, |before|, (before + r1 + [q] + r2)[|before|..]))
            == TotalCost(Replies(service, |before|, r1)) + Answer(service, |before + r1|, q).cost
               + TotalCost(Replies(service, |before + r1 + [q]|, r2))
  {
    var n1, n2 := |before + r1|, |before + r1 + [q]|;
    assert n1 == |before| + |r1|;
    assert n2 == |before| + |r1| + 1;
    AfterPrefix(before, r1, q, r2);
    CostOfStretch(service, |before|, r1, q, r2);
  }

  /** One call, then a batch, made by a session after `before`: they cost
      the call's cost plus the batch's. */
  lemma {:induction false} CostOfOneThen(service: (nat, seq<Message>) -> Reply, before: seq<seq<Message>>,
                                         q: seq<Message>, r2: seq<seq<Message>>)
    ensures TotalCost(Replies(service, |before|, (before + [q] + r2)[|before|..]))
            == Answer(service, |before|, q).cost + TotalCost(Replies(service, |before| + 1, r2))
  {
    AfterPrefix(before, [], q, r2);
    assert before + [] == before;
    assert [] + [q] + r2 == [q] + r2;
    CostOfStretch(service, |before|, [], q, r2);
  }

  lemma {:induction false} AfterPrefix(before: seq<seq<Message>>, r1: seq<seq<Message>>, q: seq<Message>, r2: seq<seq<Message>>)
    ensures (before + r1 + [q] + r2)[|before|..] == r1 + [q] + r2
  {
  }

  /** Two accounted stretches of a session, one after the other, account
      for the whole: the costs add up and the texts line up. */
  lemma {:induction false} AnsweredConcat(service: (nat, seq<Message>) -> Reply, before: seq<seq<Message>>, mid: seq<seq<Message>>, after: seq<seq<Message>>,
                       r1: seq<seq<Message>>, t1: seq<string>, c1: int, r2: seq<seq<Message>>, t2: seq<string>, c2: int)
    requires Answered(service, before, mid, r1, t1, c1)
    requires Answered(service, mid, after, r2, t2, c2)
    ensures Answered(service, before, after, r1 + r2, t1 + t2, c1 + c2)
  {
    var R1, R2 := Replies(service, |before|, r1), Replies(service, |mid|, r2);
    LogConcat(before, r1, mid, r2, after);
    RepliesConcat(service, |before|, r1, r2);
    TextsConcat(R1, R2);
    TotalCostConcat(R1, R2);
  }

  lemma {:induction false} LogConcat(before: seq<seq<Message>>, r1: seq<seq<Message>>, mid: seq<seq<Message>>, r2: seq<seq<Message>>, after: seq<seq<Message>>)
    requires mid == before + r1 && after == mid + r2
    ensures after == before + (r1 + r2) && |mid| == |before| + |r1|
  {
  }

  /** A single accounted call: its text and cost are the service's answer. */
  lemma {:induction false} AnsweredOne(service: (nat, seq<Message>) -> Reply, before: seq<seq<Message>>, calls: seq<seq<Message>>,
                    q: seq<Message>, texts: seq<string>, cost: int)
    requires Answered(service, before, calls, [q], texts, cost)
    ensures calls == before + [q]
    ensures texts == [Answer(service, |before|, q).text] && cost == Answer(service, |before|, q).cost
  {
    assert [q][..0] == [];
    var r := Replies(service, |before|, [q]);
    assert r == [Answer(service, |before|, q)];
    assert Texts(r) == [r[0].text] by {
      assert r[..0] == [];
    }
    assert TotalCost(r) == r[0].cost by {
      assert r[..0] == [];
    }
  }

  /** One call, accounted on its own. */
  lemma {:induction false} AnsweredSingle(service: (nat, seq<Message>) -> Reply, before: seq<seq<Message>>, calls: seq<seq<Message>>,
                       q: seq<Message>, text: string, cost: int)
    requires calls == before + [q]
    requires text == Answer(service, |before|, q).text && cost == Answer(service, |before|, q).cost
    ensures Answered(service, before, calls, [q], [text], cost)
  {
    assert before + [] == before;
    AnsweredSnoc(service, before, before, [], [], 0, q, text, cost);
    assert [] + [q] == [q] && [] + [text] == [text];
  }
}
