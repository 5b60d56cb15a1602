/** The fixed question catalog of each round. */
module Prompts {
  import opened Rounds

  const SCREENING_QUESTIONS: seq<string> := [
    "Tell me about yourself and why you're interested in this role.",
    "What are your salary expectations and location preferences?",
    "Are you legally authorized to work in this country?",
    "What is your current notice period and when can you join?",
    "Are you open to working in a hybrid or fully remote setup?",
    "What kind of team environment do you perform best in?",
    "Briefly describe your most recent role and why you’re looking to move on."
  ]

  const TECHNICAL_QUESTIONS: seq<string> := [
    "Explain the difference between REST and GraphQL APIs.",
    "How would you debug a slow database query?",
    "Walk me through your approach to writing unit tests.",
    "Describe how you would design a scalable logging and monitoring setup for a production system.",
    "Explain the difference between synchronous and asynchronous programming and when you’d use each.",
    "How do you approach code reviews, both as an author and as a reviewer?",
    "Describe a challenging technical problem you solved recently. How did you approach it?"
  ]

  const SCENARIO_QUESTIONS: seq<string> := [
    "Your team disagrees on a technical decision. How do you handle it?",
    "You discover a security vulnerability 2 days before launch. What do you do?",
    "A critical feature is behind schedule and the stakeholder is pressuring you to cut tests. How do you respond?",
    "You join a legacy project with very little documentation. What are your first steps?",
    "A production incident occurs outside of working hours. How do you handle communication and resolution?",
    "You realize that the solution you implemented was wrong after it’s been deployed. What do you do next?"
  ]

  /** The questions of a round, in the order they are asked. */
  function Questions(rd: Round): (qs: seq<string>)
    ensures |qs| == (if rd == Scenario then 6 else 7)
  {
    match rd
    case Screening => SCREENING_QUESTIONS
    case Technical => TECHNICAL_QUESTIONS
    case Scenario => SCENARIO_QUESTIONS
  }
}
