/** The requests other than those of the loop itself, and what is made of their answers. */
module Prompts {
  import opened Prelude
  import opened Conversation
  import opened AgentWorld

  function Trimmed(e: Env, text: string): string { e.write("trimmed", [], [text]) }

  function ReportPrompt(e: Env, task: string, h: History): Prompt {
    Plain(e.write("summary rules", [], []), e.write("summary", h, [task]))
  }

  /** The report of a model that answers at some length; otherwise a mechanical one. */
  function ReportText(e: Env, task: string, h: History, x: Exchange): string {
    if x.reply.Some? && |Trimmed(e, x.reply.value.response.content)| > 10 then Trimmed(e, x.reply.value.response.content)
    else e.write("mechanical report", h, [task])
  }

  function AuditPrompt(e: Env, task: string, h: History, claim: string): Prompt {
    Plain(e.write("validator rules", [], []), e.write("validator", h, [task, claim]))
  }

  function PartialText(e: Env, task: string, h: History, x: Exchange): string {
    if x.reply.Some? && |Trimmed(e, x.reply.value.response.content)| > 10
    then e.write("partial summary", [], [Trimmed(e, x.reply.value.response.content)])
    else e.write("mechanical partial report", h, [task])
  }

  function PlanPrompt(e: Env, task: string): Prompt { Plain(e.write("plan rules", [], [task]), task) }

  function PhasePrompt(e: Env, task: string): Prompt { Plain(e.write("phase rules", [], [task]), task) }

  function SummaryPrompt(e: Env, phase: string, result: string): Prompt {
    Plain(e.write("phase summary rules", [], []), e.write("phase result", [], [phase, result]))
  }
}
