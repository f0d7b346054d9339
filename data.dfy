/** The site's static content (lib/data.ts): the contact record and the two
    published projects, used as concrete witnesses by the other modules. */
module Data {
  import opened Types

  const contactInfo := ContactInfo(
    "jairbenitez29@gmail.com",
    "+573135399868",
    Some("https://github.com/jairbenitez29"),
    Some("https://linkedin.com/in/jair-benitez-71522a37a"),
    None,
    Some("https://www.instagram.com/jairbenitez13?igsh=MXFxY3RmM21zbmwzOQ=="))

  /** A project's prose: the card's summary and the modal's description. */
  datatype Prose = Prose(summary: string, details: string)

  /** The first project: seven gallery images, no video. Its prose is a
      parameter, so that what is proved about it holds whatever the text. */
  function Educadia(prose: Prose): Project {
    Project(
      "1",
      "Sistema de Educación Educadia",
      prose.summary,
      "/proyectosdestacados/sistemaeducadia/educadia1.png",
      ["TypeScript", "JavaScript", "React", "Next.js", "Prisma", "tRPC", "Tailwind CSS", "Zod", "MySQL"],
      None,
      None,
      Some("Educadia"),
      Specialized,
      Some(prose.details),
      Some([
        "/proyectosdestacados/sistemaeducadia/educadia1.png",
        "/proyectosdestacados/sistemaeducadia/educadia2.png",
        "/proyectosdestacados/sistemaeducadia/educadia3.png",
        "/proyectosdestacados/sistemaeducadia/educadia4.png",
        "/proyectosdestacados/sistemaeducadia/educadia5.png",
        "/proyectosdestacados/sistemaeducadia/educadia6.png",
        "/proyectosdestacados/sistemaeducadia/educadia7.png"]),
      None)
  }

  /** The second project: nine gallery images followed by a video. */
  function Temperature(prose: Prose): Project {
    Project(
      "2",
      "Sistema de Seguimiento por °C",
      prose.summary,
      "/proyectosdestacados/SistemaTemp/Temp1.png",
      ["JavaScript", "React", "Node.js", "Express", "Chart.js", "MySQL", "JWT", "PDFKit"],
      None,
      None,
      Some("Clínica local"),
      Specialized,
      Some(prose.details),
      Some([
        "/proyectosdestacados/SistemaTemp/Temp1.png",
        "/proyectosdestacados/SistemaTemp/Temp2.png",
        "/proyectosdestacados/SistemaTemp/Temp3.png",
        "/proyectosdestacados/SistemaTemp/Temp4.png",
        "/proyectosdestacados/SistemaTemp/Temp5.png",
        "/proyectosdestacados/SistemaTemp/Temp6.png",
        "/proyectosdestacados/SistemaTemp/Temp7.png",
        "/proyectosdestacados/SistemaTemp/Temp8.png",
        "/proyectosdestacados/SistemaTemp/Temp9.png"]),
      Some("/proyectosdestacados/SistemaTemp/SistemTemp.mp4"))
  }

  const educadiaProse := Prose(
    "Plataforma integral para la gestión y aplicación de exámenes escolares con sistema de retroalimentación automatizada.",
    "Sistema robusto diseñado para la administración y aplicación de evaluaciones académicas en instituciones educativas. Implementa autenticación de múltiples roles, panel administrativo completo para la gestión de exámenes, asignación masiva de evaluaciones, seguimiento individual de resultados por estudiante, retroalimentación inmediata de respuestas correctas e incorrectas, y generación de reportes detallados exportables a Excel con filtros personalizables por escuela y grado académico.")

  const temperatureProse := Prose(
    "Plataforma de monitoreo en tiempo real de temperatura para refrigeradores clínicos con visualización de datos y generación de reportes.",
    "Sistema especializado de monitoreo térmico para refrigeradores clínicos que garantiza el control riguroso de las condiciones de almacenamiento. La plataforma implementa autenticación segura mediante JWT, gestión diferenciada de roles (administrador y operario), asignación dinámica de equipos a operadores, visualización en tiempo real mediante ploteo automático de datos, dashboard administrativo para supervisión integral, y generación de reportes en PDF con filtros avanzados por refrigerador, mes y año para auditorías y cumplimiento normativo.")

  /** The published project list, in the order the section shows it. */
  function Published(e: Prose, t: Prose): seq<Project> {
    [Educadia(e), Temperature(t)]
  }

  /** The list as published, with its own text. */
  const projects: seq<Project> := Published(educadiaProse, temperatureProse)

  /** The shape of the published projects: technology and image counts, the
      first three technologies of the first project, and the second's video. */
  lemma PublishedShapes(e: Prose, t: Prose)
    ensures |Educadia(e).technologies| == 9 && |Temperature(t).technologies| == 8
    ensures Educadia(e).technologies[..3] == ["TypeScript", "JavaScript", "React"]
    ensures Educadia(e).images.Some? && |Educadia(e).images.value| == 7 && Educadia(e).video.None?
    ensures Temperature(t).images.Some? && |Temperature(t).images.value| == 9 && Temperature(t).video.Some?
  {
  }
}
