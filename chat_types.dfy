/** The value types of the chat widget (src/types/chat.ts): who sent a
    message, which agent category answered, and the agent status indicator.
    Timestamps and attached resources are not modelled; a message id is a
    number supplied by the host clock. */
module ChatTypes {

  datatype Option<+T> = None | Some(value: T)

  /** `sender: 'user' | 'agent'` */
  datatype Sender = User | Agent

  /** `agentType?: 'orchestrator' | 'information' | 'help-finder' | 'resource' | 'safety' | 'validation'` */
  datatype AgentType = Orchestrator | Information | HelpFinder | Resource | Safety | Validation

  /** `type AgentStatus = 'idle' | 'processing' | 'crisis' | 'error'` */
  datatype AgentStatus = Idle | Processing | CrisisStatus | Error

  /** One bubble of the conversation history. `agentType` is present on
      agent messages only. */
  datatype Message = Message(id: nat, content: string, sender: Sender, agentType: Option<AgentType>)
}
