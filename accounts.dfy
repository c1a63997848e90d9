/** Users and their chatbots: the rows the handlers look up before they touch
    knowledge sources or conversations. */
module Accounts {
  import opened Common

  datatype User = User(id: string, name: string, email: string, password: string, isAdmin: bool)

  /** A tenant. An empty `systemPrompt` stands for both `""` and `null`, which
      the chat handler treats alike. */
  datatype Chatbot = Chatbot(id: string, userId: string, name: string, systemPrompt: string,
                             welcomeMessage: string)

  function OwnedBy(userId: string): Chatbot -> bool { (b: Chatbot) => b.userId == userId }

  function Identified(id: string): Chatbot -> bool { (b: Chatbot) => b.id == id }

  /** `chatbot.findFirst({where: {userId}})`: the user's first chatbot. */
  function ChatbotOf(chatbots: seq<Chatbot>, userId: string): Option<Chatbot> {
    FindFirst(chatbots, OwnedBy(userId))
  }

  /** `chatbot.findUnique({where: {id}})`. */
  function ChatbotById(chatbots: seq<Chatbot>, id: string): Option<Chatbot> {
    FindFirst(chatbots, Identified(id))
  }

  function WithEmail(email: string): User -> bool { (u: User) => u.email == email }

  /** `user.findUnique({where: {email}})`. */
  function UserByEmail(users: seq<User>, email: string): Option<User> {
    FindFirst(users, WithEmail(email))
  }
}
