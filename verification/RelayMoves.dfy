/** What one section of a handler leaves alone: everybody else, and all of its
    own connection but its position. */
module RelayMoves {
  import opened Protocol
  import opened Registry
  import opened RelaySystem
  import opened RelaySteps
  import opened RelayRuns
  import PendingMap
  import WebShares
  import AuthCode

  /** Only the position of `a` differs. */
  predicate MovesOnly(s: State, s': State, a: AgentId) {
    && a in s.agents && a in s'.agents && s'.cfg == s.cfg
    && s'.agents == s.agents[a := s.agents[a].(pc := s'.agents[a].pc)]
  }

  lemma ConfirmMoves(s: State, a: AgentId, c: Choice)
    requires a in s.agents && Runnable(s, a, c)
    requires var pc := s.agents[a].pc; pc.CnfDecline? || pc.CnfConsume? || pc.CnfCreate?
    ensures MovesOnly(s, Run(s, a, c), a) == true
  {
  }

  lemma RequestMoves(s: State, a: AgentId, c: Choice)
    requires a in s.agents && Runnable(s, a, c)
    requires var pc := s.agents[a].pc; pc.Registering? || pc.ReqCheck? || pc.ReqStore?
    ensures MovesOnly(s, Run(s, a, c), a) == true
  {
  }

  lemma OfferMoves(s: State, a: AgentId, c: Choice)
    requires a in s.agents && Runnable(s, a, c)
    requires var pc := s.agents[a].pc; pc.Offer? || pc.FwdTouch? || pc.CloseOne?
    ensures MovesOnly(s, Run(s, a, c), a) == true
  {
  }

  lemma JoinMoves(s: State, a: AgentId, c: Choice)
    requires a in s.agents && Runnable(s, a, c)
    requires var pc := s.agents[a].pc; pc.WebJoin? || pc.WebStore?
    ensures MovesOnly(s, Run(s, a, c), a) == true
  {
  }

  lemma ShareMoves(s: State, a: AgentId, c: Choice)
    requires a in s.agents && Runnable(s, a, c)
    requires var pc := s.agents[a].pc; pc.ShareCreate? || pc.ShareList? || pc.ShareRevoke? || pc.WebCheck?
    ensures MovesOnly(s, Run(s, a, c), a) == true
  {
    RunsShare(s, a, c);
  }

  lemma LookupMoves(s: State, a: AgentId, c: Choice)
    requires a in s.agents && Runnable(s, a, c) && IsLookup(s.agents[a].pc)
    ensures MovesOnly(s, Run(s, a, c), a) == true
  {
    RunsLookup(s, a, c);
  }

  /** No section changes who anyone is, what they have sent, or where the others
      stand. */
  lemma RunMovesOnly(s: State, a: AgentId, c: Choice)
    requires a in s.agents && Runnable(s, a, c)
    ensures MovesOnly(s, Run(s, a, c), a) == true
  {
    match s.agents[a].pc
    case CnfDecline(_, _) | CnfConsume(_, _, _) | CnfCreate(_, _, _, _) => ConfirmMoves(s, a, c);
    case Registering | ReqCheck(_, _) | ReqStore(_, _) => RequestMoves(s, a, c);
    case Offer(_, _, _) | FwdTouch(_, _) | CloseOne(_) => OfferMoves(s, a, c);
    case WebJoin(_) | WebStore(_) => JoinMoves(s, a, c);
    case ShareCreate(_) | ShareList | ShareRevoke(_) | WebCheck => ShareMoves(s, a, c);
    case _ => LookupMoves(s, a, c);
  }
}
