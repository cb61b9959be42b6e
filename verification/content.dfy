/** The product copy the terminal's file tree and the spreadsheet's first
    sheet are built from: title, subtitle, tagline, the four numbered sections
    and the call to action. */
module Content {

  datatype Section = Section(step: string, title: string, description: string)

  const Title: string := "Cursor"
  const Subtitle: string := "Make the thing you want to make, faster"
  const Tagline: string := "for noobs"
  const Cta: string := "Download for MacOS"

  const Section1: Section := Section(
    "01",
    "Type Your Idea, See It in Action",
    "Write a quick description of your vision and watch Cursor transform it into a functional demo in moments. No need to wrestle with coding syntax or complex frameworks\U{2014}our AI handles the heavy lifting so you can focus on creativity and results.")

  const Section2: Section := Section(
    "02",
    "Refine Your Project with an AI Engineer",
    "Need to tweak layouts, add features, or optimize performance? Cursor's AI works alongside you like a seasoned developer, helping refine your software every step of the way. Iterate and improve easily, one prompt at a time.")

  const Section3: Section := Section(
    "03",
    "Move Fast Without Compromising Quality",
    "When you can build so quickly, you're free to explore new ideas for the fun of it. Test out different approaches, pivot on a whim, and keep every project polished. The speed and quality let you push creative boundaries without ever feeling stuck.")

  const Section4: Section := Section(
    "04",
    "Scale to Pro Anytime",
    "Cursor isn't just for quick demos\U{2014}it's engineered for serious growth. When you're ready to level up, dive deeper into advanced features, robust integrations, and pro-level tools. In no time, you'll have a professional-grade product built on a strong foundation.")
}
