/**
 * The abstract factory demo: greeter factories that create a greeting and a matching
 * greeting tone, where the tone constructor only accepts `'.'` and `'!'`.
 */
module AbstractFactory {
  /** `Greeting(text)`. */
  datatype Greeting = Greeting(text: string)

  /** A tone object; `MakeTone` is its validating constructor. */
  datatype GreetingTone = GreetingTone(tone: string)

  /** If `tone` is one the constructor accepts. */
  predicate ValidTone(tone: string)
  {
    tone == "." || tone == "!"
  }

  /** `new GreetingTone(tone)`: a valid tone is kept; any other becomes `'.'`, after a warning. */
  function MakeTone(tone: string): (t: GreetingTone)
    ensures ValidTone(t.tone)
    ensures ValidTone(tone) ==> t.tone == tone
    ensures !ValidTone(tone) ==> t.tone == "."
  {
    if tone != "." && tone != "!" then GreetingTone(".") else GreetingTone(tone)
  }

  /** Building a tone from a tone already built changes nothing. */
  lemma MakeToneIdempotent(tone: string)
    ensures MakeTone(MakeTone(tone).tone) == MakeTone(tone)
  {
  }

  /** The factories: the base `GreeterFactory`, `NeutralGreeter` and `HappyGreeter`. */
  datatype Factory = GreeterFactory | NeutralGreeter | HappyGreeter

  /** `createGreeting`: every factory inherits the base `'hello'` greeting. */
  function CreateGreeting(f: Factory): (g: Greeting)
    ensures g.text == "hello"
  {
    Greeting("hello")
  }

  /** `createGreetingTone`: `HappyGreeter` overrides the tone with `'!'`; the others use `'.'`. */
  function CreateGreetingTone(f: Factory): (t: GreetingTone)
    ensures ValidTone(t.tone)
    ensures t.tone == "!" <==> f == HappyGreeter
  {
    match f
    case HappyGreeter => MakeTone("!")
    case _ => MakeTone(".")
  }

  /** The message a factory's greeting and tone make together. */
  function Message(f: Factory): string
  {
    CreateGreeting(f).text + CreateGreetingTone(f).tone
  }

  /** The demo prints `'hello!'` for the happy greeter; the neutral greeter would say `'hello.'`. */
  lemma FactoryMessages()
    ensures Message(HappyGreeter) == "hello!"
    ensures Message(NeutralGreeter) == "hello." && Message(GreeterFactory) == "hello."
  {
  }
}
